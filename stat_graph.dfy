/** The first generation of the stat graph (Runtime/Modifier.cs, Runtime/Stat.cs
    over the BindableFloat of Runtime/BindableProp.cs), modelled as one arena.
    Every BindableFloat, Modifier and PercentModifier is a node with a value and
    an invocation list; a modifier node also carries its magnitude, its
    readonly base, its rule and its `IsActive` flag. A Stat keeps its base node,
    its list of modifiers, its dirty flag and its cached value.

    A modifier's base is readonly and exists before the modifier, so node ids
    (allocation order) strictly increase along every base edge: this is what
    makes the synchronous, depth-first notification terminate. */
module StatGraph {
  import opened Lists
  import opened Rules

  type NodeId = nat
  type StatId = nat

  /** The modifier part of a node: `_modValue`, `_base`, the rule chosen by the
      class (Modifier or PercentModifier) and `IsActive`. */
  datatype Modifier = Modifier(magnitude: real, base: Option<NodeId>, rule: Rule, active: bool)

  /** A subscription held in a node's `OnValueChanged` invocation list. */
  datatype Handler =
    | RefreshModifier(modifier: NodeId)   // Modifier.HandleBaseValueChange
    | BaseChanged(stat: StatId)           // Stat.HandleBaseValueChange
    | ModifierChanged(stat: StatId)       // Stat.HandleModifierValueChange

  /** The structural fields of a Stat: `_base` and `_mods`. */
  datatype StatNode = StatNode(base: NodeId, mods: seq<NodeId>)

  /** The lazily maintained fields of a Stat: `_isDirty` and `_value`. */
  datatype Cache = Cache(dirty: bool, value: real)

  predicate IsActive(m: NodeId, modifiers: map<NodeId, Modifier>)
  {
    m in modifiers && modifiers[m].active
  }

  /** What a listed modifier adds to a stat: its value when active, nothing otherwise. */
  function Contribution(m: NodeId, modifiers: map<NodeId, Modifier>, values: map<NodeId, real>): real
  {
    if IsActive(m, modifiers) && m in values then values[m] else 0.0
  }

  /** Sum of the values of the active entries of a modifier list, counted with multiplicity. */
  function ActiveSum(ms: seq<NodeId>, modifiers: map<NodeId, Modifier>, values: map<NodeId, real>): real
  {
    if ms == [] then 0.0 else Contribution(ms[0], modifiers, values) + ActiveSum(ms[1..], modifiers, values)
  }

  /** The entries of a modifier list that are active, in order. */
  function ActiveOnly(ms: seq<NodeId>, modifiers: map<NodeId, Modifier>): seq<NodeId>
  {
    if ms == [] then []
    else (if IsActive(ms[0], modifiers) then [ms[0]] else []) + ActiveOnly(ms[1..], modifiers)
  }

  /** The value a modifier's base currently reads, None when it has no base. */
  function BaseValue(m: Modifier, values: map<NodeId, real>): Option<real>
  {
    if m.base.Some? && m.base.value in values then Some(values[m.base.value]) else None
  }

  /** A modifier node's value agrees with its `CalculateValue`. A percent
      modifier without a base never recomputes (its constructor returns early and
      every later refresh throws), so nothing is required of it. */
  predicate Consistent(m: Modifier, v: real, values: map<NodeId, real>)
  {
    var c := Calculate(m.rule, BaseValue(m, values), m.magnitude);
    c.None? || v == c.value
  }

  /** `y` is a modifier whose value is derived, through one or more base edges,
      from the node `x`. */
  ghost predicate DependsOn(modifiers: map<NodeId, Modifier>, y: NodeId, x: NodeId)
    decreases y
  {
    && y in modifiers && modifiers[y].base.Some? && modifiers[y].base.value < y
    && (modifiers[y].base.value == x || DependsOn(modifiers, modifiers[y].base.value, x))
  }

  /** The modifier node `m` agrees with its `CalculateValue`. */
  ghost predicate ModOkIn(modifiers: map<NodeId, Modifier>, values: map<NodeId, real>, m: NodeId)
  {
    m in modifiers && m in values && Consistent(modifiers[m], values[m], values)
  }

  /** Base value plus the values of the active listed modifiers. */
  ghost function AggregateIn(st: StatNode, modifiers: map<NodeId, Modifier>, values: map<NodeId, real>): real
    requires st.base in values
  {
    values[st.base] + ActiveSum(st.mods, modifiers, values)
  }

  /** A clean stat's cache holds its aggregate. */
  ghost predicate StatOkIn(stats: map<StatId, StatNode>, caches: map<StatId, Cache>,
                           modifiers: map<NodeId, Modifier>, values: map<NodeId, real>, s: StatId)
  {
    && s in stats && s in caches && stats[s].base in values
    && (caches[s].dirty || caches[s].value == AggregateIn(stats[s], modifiers, values))
  }

  /** A subscription at node `n` points back to something that listens to `n`. */
  ghost predicate HandlerOkIn(modifiers: map<NodeId, Modifier>, stats: map<StatId, StatNode>, n: NodeId, h: Handler)
  {
    match h
    case RefreshModifier(m) => m in modifiers && modifiers[m].base == Some(n)
    case BaseChanged(s) => s in stats
    case ModifierChanged(s) => s in stats
  }

  /** The subscriptions the notification relies on: each base edge goes to an
      earlier node and is subscribed, each subscription points back to a
      listener of that node, and each stat listens to its base and to its
      active modifiers. */
  ghost predicate EdgesIn(subscribers: map<NodeId, seq<Handler>>, modifiers: map<NodeId, Modifier>,
                          stats: map<StatId, StatNode>, nextNode: nat)
  {
    && (forall n :: n in subscribers ==> n < nextNode)
    && modifiers.Keys <= subscribers.Keys
    && BaseEdgesIn(subscribers, modifiers)
    && HandlersOkIn(subscribers, modifiers, stats)
    && StatEdgesIn(subscribers, modifiers, stats)
  }

  /** Each modifier's base is an earlier node that has the modifier's refresh subscribed. */
  ghost predicate BaseEdgesIn(subscribers: map<NodeId, seq<Handler>>, modifiers: map<NodeId, Modifier>)
  {
    forall m :: m in modifiers && modifiers[m].base.Some? ==>
      var b := modifiers[m].base.value;
      b < m && b in subscribers && RefreshModifier(m) in subscribers[b]
  }

  /** Every subscription points back to a listener of the node it is subscribed to. */
  ghost predicate HandlersOkIn(subscribers: map<NodeId, seq<Handler>>, modifiers: map<NodeId, Modifier>,
                               stats: map<StatId, StatNode>)
  {
    forall n, h :: n in subscribers && h in subscribers[n] ==> HandlerOkIn(modifiers, stats, n, h)
  }

  /** Each stat listens to its base and to each of its active modifiers. */
  ghost predicate StatEdgesIn(subscribers: map<NodeId, seq<Handler>>, modifiers: map<NodeId, Modifier>,
                              stats: map<StatId, StatNode>)
  {
    && (forall s :: s in stats ==> stats[s].base in subscribers && BaseChanged(s) in subscribers[stats[s].base])
    && (forall s, m :: s in stats && m in stats[s].mods ==>
          m in modifiers && (modifiers[m].active ==> m in subscribers && ModifierChanged(s) in subscribers[m]))
  }

  /** The wiring every constructor and operation keeps: the edges above,
      stat ids below the counter, and a modifier listed by at most one stat. */
  ghost predicate WiredIn(subscribers: map<NodeId, seq<Handler>>, modifiers: map<NodeId, Modifier>,
                          stats: map<StatId, StatNode>, nextNode: nat, nextStat: nat)
  {
    && EdgesIn(subscribers, modifiers, stats, nextNode)
    && (forall s :: s in stats ==> s < nextStat)
    && Exclusive(stats)
  }

  /** A modifier is listed by at most one stat. */
  ghost predicate Exclusive(stats: map<StatId, StatNode>)
  {
    forall s, t, m {:trigger m in stats[s].mods, m in stats[t].mods} :: s in stats && t in stats && m in stats[s].mods && m in stats[t].mods ==> s == t
  }

  /** Every modifier agrees with its `CalculateValue` and every clean stat's
      cache holds its aggregate. */
  ghost predicate ConsistentIn(values: map<NodeId, real>, modifiers: map<NodeId, Modifier>,
                               stats: map<StatId, StatNode>, caches: map<StatId, Cache>)
  {
    && (forall m :: m in modifiers ==> ModOkIn(modifiers, values, m))
    && (forall s :: s in stats ==> StatOkIn(stats, caches, modifiers, values, s))
  }

  ghost predicate ValidIn(values: map<NodeId, real>, subscribers: map<NodeId, seq<Handler>>,
                          modifiers: map<NodeId, Modifier>, stats: map<StatId, StatNode>,
                          caches: map<StatId, Cache>, nextNode: nat, nextStat: nat)
  {
    && WiredIn(subscribers, modifiers, stats, nextNode, nextStat)
    && values.Keys == subscribers.Keys && caches.Keys == stats.Keys
    && ConsistentIn(values, modifiers, stats, caches)
  }

  /** Where a change of `x` to `v` stands once the first `i` handlers of
      `x`'s invocation list `hs` have run, against the maps `values0` and
      `caches0` from before the change: what derives from `x` is consistent or
      still has its refresh pending, what does not is as consistent as it
      was, and every stat is clean-and-right, dirty, or still to be told. */
  ghost predicate ProgressIn(modifiers: map<NodeId, Modifier>, stats: map<StatId, StatNode>,
                             values: map<NodeId, real>, caches: map<StatId, Cache>,
                             x: NodeId, v: real, hs: seq<Handler>, i: nat,
                             values0: map<NodeId, real>, caches0: map<StatId, Cache>)
  {
    && i <= |hs|
    && caches.Keys == stats.Keys
    && x in values && values[x] == v
    && CachesKeptIn(caches0, caches)
    && ValuesProgressIn(modifiers, values, x, hs, i, values0)
    && StatsProgressIn(modifiers, stats, values, caches, hs, i, values0, caches0)
  }

  /** Between `caches0` and `caches` a dirty stat stayed dirty and a clean one untouched. */
  ghost predicate CachesKeptIn(caches0: map<StatId, Cache>, caches: map<StatId, Cache>)
  {
    && caches.Keys == caches0.Keys
    && (forall s :: s in caches && caches0[s].dirty ==> caches[s].dirty)
    && (forall s :: s in caches && !caches[s].dirty ==> caches[s] == caches0[s])
  }

  /** The node values part of `ProgressIn`. */
  ghost predicate ValuesProgressIn(modifiers: map<NodeId, Modifier>, values: map<NodeId, real>,
                                   x: NodeId, hs: seq<Handler>, i: nat, values0: map<NodeId, real>)
    requires i <= |hs|
  {
    && values.Keys == values0.Keys
    && (forall n :: n in values && n < x ==> values[n] == values0[n])
    && (forall n :: n in values && n != x && !DependsOn(modifiers, n, x) ==> values[n] == values0[n])
    && (forall m :: m in modifiers && DependsOn(modifiers, m, x) ==>
          ModOkIn(modifiers, values, m) || RefreshModifier(m) in hs[i..])
    && (forall m :: m in modifiers && m != x && !DependsOn(modifiers, m, x) && ModOkIn(modifiers, values0, m) ==>
          ModOkIn(modifiers, values, m))
  }

  /** The stats part of `ProgressIn`. */
  ghost predicate StatsProgressIn(modifiers: map<NodeId, Modifier>, stats: map<StatId, StatNode>,
                                  values: map<NodeId, real>, caches: map<StatId, Cache>, hs: seq<Handler>, i: nat,
                                  values0: map<NodeId, real>, caches0: map<StatId, Cache>)
    requires i <= |hs|
  {
    && (forall s :: s in stats && (BaseChanged(s) in hs[..i] || ModifierChanged(s) in hs[..i]) ==> s in caches && caches[s].dirty)
    && (forall s :: s in stats && StatOkIn(stats, caches0, modifiers, values0, s) ==>
          StatOkIn(stats, caches, modifiers, values, s) || BaseChanged(s) in hs[i..] || ModifierChanged(s) in hs[i..])
  }

  /** Between `values0` and `values`, every stat that lists a changed
      active modifier has been marked dirty. */
  ghost predicate ToldIn(stats: map<StatId, StatNode>, modifiers: map<NodeId, Modifier>,
                         values0: map<NodeId, real>, values: map<NodeId, real>, caches: map<StatId, Cache>)
  {
    forall s {:trigger stats[s]} :: s in stats ==>
      forall m {:trigger IsActive(m, modifiers)} :: m in stats[s].mods && IsActive(m, modifiers) && m in values0 && m in values && values[m] != values0[m]
        ==> s in caches && caches[s].dirty
  }

  /** One handler's run: no stat became clean, and the stats its changes
      concern were told. */
  ghost predicate ToldStepIn(stats: map<StatId, StatNode>, modifiers: map<NodeId, Modifier>,
                             values0: map<NodeId, real>, caches0: map<StatId, Cache>,
                             values: map<NodeId, real>, caches: map<StatId, Cache>)
  {
    && (forall s :: s in caches0 && caches0[s].dirty ==> s in caches && caches[s].dirty)
    && ToldIn(stats, modifiers, values0, values, caches)
  }

  /** Marking a stat dirty changes no value and cleans no stat. */
  lemma MarkedTold(stats: map<StatId, StatNode>, modifiers: map<NodeId, Modifier>,
                   values: map<NodeId, real>, caches0: map<StatId, Cache>, s: StatId)
    requires s in caches0
    ensures ToldStepIn(stats, modifiers, values, caches0, values, caches0[s := caches0[s].(dirty := true)])
  {
  }

  /** The two halves of `ToldStepIn`, as a nested `SetValue` states them. */
  lemma ToldStepOf(stats: map<StatId, StatNode>, modifiers: map<NodeId, Modifier>,
                   values0: map<NodeId, real>, caches0: map<StatId, Cache>,
                   values: map<NodeId, real>, caches: map<StatId, Cache>)
    requires caches.Keys == caches0.Keys
    requires forall s :: s in caches && caches0[s].dirty ==> caches[s].dirty
    requires ToldIn(stats, modifiers, values0, values, caches)
    ensures ToldStepIn(stats, modifiers, values0, caches0, values, caches)
  {
  }

  /** Two notification steps told every stat the composed change concerns. */
  lemma ToldTrans(stats: map<StatId, StatNode>, modifiers: map<NodeId, Modifier>,
                  values0: map<NodeId, real>, values1: map<NodeId, real>, values2: map<NodeId, real>,
                  caches1: map<StatId, Cache>, caches2: map<StatId, Cache>)
    requires values2.Keys == values1.Keys
    requires ToldIn(stats, modifiers, values0, values1, caches1) && ToldStepIn(stats, modifiers, values1, caches1, values2, caches2)
    ensures ToldIn(stats, modifiers, values0, values2, caches2)
  {
    forall s, m | s in stats && m in stats[s].mods && IsActive(m, modifiers) && m in values0 && m in values2 &&
                  values2[m] != values0[m]
      ensures s in caches2 && caches2[s].dirty
    {
      if values1[m] != values0[m] {
        assert s in caches1 && caches1[s].dirty;
      }
    }
  }

  // ---------------------------------------------------------------------------
  // Lemmas about the specification functions

  /** Dependencies only go from later nodes to earlier ones: no modifier
      depends on itself, directly or through a chain. */
  lemma {:induction false} DependsOnBelow(modifiers: map<NodeId, Modifier>, y: NodeId, x: NodeId)
    ensures DependsOn(modifiers, y, x) ==> x < y && x <= modifiers[y].base.value
    decreases y
  {
    if DependsOn(modifiers, y, x) {
      var b := modifiers[y].base.value;
      if b != x {
        DependsOnBelow(modifiers, b, x);
      }
    }
  }

  lemma {:induction false} DependsOnTransitive(modifiers: map<NodeId, Modifier>, z: NodeId, y: NodeId, x: NodeId)
    ensures DependsOn(modifiers, z, y) && DependsOn(modifiers, y, x) ==> DependsOn(modifiers, z, x)
    decreases z
  {
    if DependsOn(modifiers, z, y) && DependsOn(modifiers, y, x) {
      var b := modifiers[z].base.value;
      if b != y {
        DependsOnTransitive(modifiers, b, y, x);
      }
    }
  }

  /** The values half of one more handler run, when that handler refreshed
      the child `m` of `x`. */
  lemma ChildValues(modifiers: map<NodeId, Modifier>, x: NodeId, hs: seq<Handler>, i: nat, m: NodeId,
                    values0: map<NodeId, real>, valuesPre: map<NodeId, real>, values: map<NodeId, real>)
    requires i < |hs| && hs[i] == RefreshModifier(m)
    requires m in modifiers && modifiers[m].base == Some(x) && x < m && x in valuesPre
    requires ValuesProgressIn(modifiers, valuesPre, x, hs, i, values0)
    requires values.Keys == valuesPre.Keys
    requires m in values && values[m] == Calculate(modifiers[m].rule, Some(valuesPre[x]), modifiers[m].magnitude).value
    requires forall n :: n in values && n < m ==> values[n] == valuesPre[n]
    requires forall n :: n in values && n != m && !DependsOn(modifiers, n, m) ==> values[n] == valuesPre[n]
    requires forall m' :: m' in modifiers && m' != m && ModOkIn(modifiers, valuesPre, m') ==> ModOkIn(modifiers, values, m')
    ensures ValuesProgressIn(modifiers, values, x, hs, i + 1, values0)
    ensures values[x] == valuesPre[x]
  {
    assert hs[i..] == [hs[i]] + hs[i + 1..];
    ChildFrame(modifiers, x, m, values0, valuesPre, values);
    assert values[x] == valuesPre[x];
    assert ModOkIn(modifiers, values, m);
  }

  /** The stats half of one more handler run, when that handler refreshed a modifier. */
  lemma ChildStats(modifiers: map<NodeId, Modifier>, stats: map<StatId, StatNode>, hs: seq<Handler>, i: nat, m: NodeId,
                   values0: map<NodeId, real>, caches0: map<StatId, Cache>,
                   valuesPre: map<NodeId, real>, cachesPre: map<StatId, Cache>,
                   values: map<NodeId, real>, caches: map<StatId, Cache>)
    requires i < |hs| && hs[i] == RefreshModifier(m)
    requires StatsProgressIn(modifiers, stats, valuesPre, cachesPre, hs, i, values0, caches0)
    requires CachesKeptIn(caches0, cachesPre) && CachesKeptIn(cachesPre, caches)
    requires forall s :: s in stats && StatOkIn(stats, cachesPre, modifiers, valuesPre, s) ==>
               StatOkIn(stats, caches, modifiers, values, s)
    ensures StatsProgressIn(modifiers, stats, values, caches, hs, i + 1, values0, caches0)
    ensures CachesKeptIn(caches0, caches)
  {
    assert hs[i..] == [hs[i]] + hs[i + 1..];
    assert hs[..i + 1] == hs[..i] + [hs[i]];
  }

  /** What the refresh of a child `m` of `x` changed derives from `x` as well. */
  lemma ChildFrame(modifiers: map<NodeId, Modifier>, x: NodeId, m: NodeId,
                   values0: map<NodeId, real>, valuesPre: map<NodeId, real>, values: map<NodeId, real>)
    requires m in modifiers && modifiers[m].base == Some(x) && x < m
    requires values.Keys == valuesPre.Keys == values0.Keys
    requires forall n :: n in valuesPre && n != x && !DependsOn(modifiers, n, x) ==> valuesPre[n] == values0[n]
    requires forall n :: n in values && n != m && !DependsOn(modifiers, n, m) ==> values[n] == valuesPre[n]
    ensures forall n :: n in values && n != x && !DependsOn(modifiers, n, x) ==> values[n] == values0[n]
  {
    assert DependsOn(modifiers, m, x);
    forall n | n in values && n != x && !DependsOn(modifiers, n, x)
      ensures values[n] == values0[n]
    {
      if DependsOn(modifiers, n, m) {
        DependsOnTransitive(modifiers, n, m, x);
      }
    }
  }

  /** The sum over the active entries is the sum over the whole list:
      dropping inactive entries never changes a stat's value. */
  lemma {:induction false} ActiveSumOfActiveOnly(ms: seq<NodeId>, modifiers: map<NodeId, Modifier>, values: map<NodeId, real>)
    ensures ActiveSum(ActiveOnly(ms, modifiers), modifiers, values) == ActiveSum(ms, modifiers, values)
  {
    if ms != [] {
      ActiveSumOfActiveOnly(ms[1..], modifiers, values);
      var rest := ActiveOnly(ms[1..], modifiers);
      if IsActive(ms[0], modifiers) {
        assert ([ms[0]] + rest)[1..] == rest;
      } else {
        assert [] + rest == rest;
      }
    }
  }

  /** Every kept entry is an active entry of the original list. */
  lemma {:induction false} ActiveOnlyKeeps(ms: seq<NodeId>, modifiers: map<NodeId, Modifier>, m: NodeId)
    ensures m in ActiveOnly(ms, modifiers) <==> m in ms && IsActive(m, modifiers)
  {
    if ms != [] {
      ActiveOnlyKeeps(ms[1..], modifiers, m);
      assert ms == [ms[0]] + ms[1..];
    }
  }

  lemma {:induction false} ActiveOnlyConcat(a: seq<NodeId>, b: seq<NodeId>, modifiers: map<NodeId, Modifier>)
    ensures ActiveOnly(a + b, modifiers) == ActiveOnly(a, modifiers) + ActiveOnly(b, modifiers)
  {
    if a != [] {
      ActiveOnlyConcat(a[1..], b, modifiers);
      assert (a + b)[1..] == a[1..] + b;
    } else {
      assert a + b == b;
    }
  }

  /** Removing an inactive entry leaves the active entries as they were. */
  lemma {:induction false} ActiveOnlyRemoveInactive(ms: seq<NodeId>, m: NodeId, modifiers: map<NodeId, Modifier>)
    requires !IsActive(m, modifiers)
    ensures ActiveOnly(RemoveFirst(ms, m), modifiers) == ActiveOnly(ms, modifiers)
  {
    if ms != [] && ms[0] != m {
      ActiveOnlyRemoveInactive(ms[1..], m, modifiers);
      assert ([ms[0]] + RemoveFirst(ms[1..], m))[1..] == RemoveFirst(ms[1..], m);
    }
  }

  /** A stat's sum only depends on what its listed modifiers contribute. */
  lemma {:induction false} ActiveSumFrame(ms: seq<NodeId>, modifiers: map<NodeId, Modifier>, values: map<NodeId, real>,
                                          modifiers': map<NodeId, Modifier>, values': map<NodeId, real>)
    requires forall m :: m in ms ==> Contribution(m, modifiers, values) == Contribution(m, modifiers', values')
    ensures ActiveSum(ms, modifiers, values) == ActiveSum(ms, modifiers', values')
  {
    if ms != [] {
      assert ms[0] in ms;
      assert forall m :: m in ms[1..] ==> m in ms;
      ActiveSumFrame(ms[1..], modifiers, values, modifiers', values');
    }
  }

  lemma {:induction false} ActiveSumConcat(a: seq<NodeId>, b: seq<NodeId>, modifiers: map<NodeId, Modifier>, values: map<NodeId, real>)
    ensures ActiveSum(a + b, modifiers, values) == ActiveSum(a, modifiers, values) + ActiveSum(b, modifiers, values)
  {
    if a != [] {
      ActiveSumConcat(a[1..], b, modifiers, values);
      assert (a + b)[1..] == a[1..] + b;
    } else {
      assert a + b == b;
    }
  }

  // ---------------------------------------------------------------------------
  // How the invariant survives each structural change

  /** A new node with an empty invocation list disturbs nothing. */
  lemma ValidAddNode(values: map<NodeId, real>, subscribers: map<NodeId, seq<Handler>>,
                     modifiers: map<NodeId, Modifier>, stats: map<StatId, StatNode>,
                     caches: map<StatId, Cache>, nextNode: nat, nextStat: nat, v: real)
    requires ValidIn(values, subscribers, modifiers, stats, caches, nextNode, nextStat)
    ensures nextNode !in values
    ensures ValidIn(values[nextNode := v], subscribers[nextNode := []], modifiers, stats, caches, nextNode + 1, nextStat)
  {
    var n := nextNode;
    var values', subscribers' := values[n := v], subscribers[n := []];
    assert EdgesIn(subscribers', modifiers, stats, n + 1) by {
      forall n', h | n' in subscribers' && h in subscribers'[n']
        ensures HandlerOkIn(modifiers, stats, n', h)
      {
        assert n' != n;
      }
    }
    forall m | m in modifiers
      ensures ModOkIn(modifiers, values', m)
    {
      assert ModOkIn(modifiers, values, m);
    }
    forall s | s in stats
      ensures StatOkIn(stats, caches, modifiers, values', s)
    {
      assert StatOkIn(stats, caches, modifiers, values, s);
      ActiveSumFrame(stats[s].mods, modifiers, values', modifiers, values);
    }
  }

  /** The value a new modifier holds once its constructor returns. */
  function InitialValue(values: map<NodeId, real>, magnitude: real, base: Option<NodeId>, rule: Rule): real
    requires base.Some? ==> base.value in values
  {
    if base.Some? then Calculate(rule, Some(values[base.value]), magnitude).value else magnitude
  }

  /** The invocation lists once a new modifier `n` has subscribed to its base. */
  function SubscribedToBase(subscribers: map<NodeId, seq<Handler>>, n: NodeId, base: Option<NodeId>): map<NodeId, seq<Handler>>
    requires base.Some? ==> base.value in subscribers
  {
    if base.Some? then subscribers[n := []][base.value := subscribers[base.value] + [RefreshModifier(n)]]
    else subscribers[n := []]
  }

  /** A new modifier subscribed to an existing base disturbs nothing and is
      itself consistent. */
  lemma ValidAddModifier(values: map<NodeId, real>, subscribers: map<NodeId, seq<Handler>>,
                         modifiers: map<NodeId, Modifier>, stats: map<StatId, StatNode>,
                         caches: map<StatId, Cache>, nextNode: nat, nextStat: nat,
                         magnitude: real, base: Option<NodeId>, rule: Rule)
    requires ValidIn(values, subscribers, modifiers, stats, caches, nextNode, nextStat)
    requires base.Some? ==> base.value in values
    ensures nextNode !in values
    ensures ValidIn(values[nextNode := InitialValue(values, magnitude, base, rule)],
                    SubscribedToBase(subscribers, nextNode, base),
                    modifiers[nextNode := Modifier(magnitude, base, rule, false)],
                    stats, caches, nextNode + 1, nextStat)
  {
    EdgesAddModifier(subscribers, modifiers, stats, nextNode, Modifier(magnitude, base, rule, false));
    ConsistentAddModifier(values, modifiers, stats, caches, nextNode, Modifier(magnitude, base, rule, false),
                          InitialValue(values, magnitude, base, rule));
  }

  lemma EdgesAddModifier(subscribers: map<NodeId, seq<Handler>>, modifiers: map<NodeId, Modifier>,
                         stats: map<StatId, StatNode>, n: nat, r: Modifier)
    requires EdgesIn(subscribers, modifiers, stats, n)
    requires r.base.Some? ==> r.base.value in subscribers
    ensures EdgesIn(SubscribedToBase(subscribers, n, r.base), modifiers[n := r], stats, n + 1)
  {
    var subscribers' := SubscribedToBase(subscribers, n, r.base);
    var modifiers' := modifiers[n := r];
    assert forall n' :: n' in subscribers ==> forall h :: h in subscribers[n'] ==> h in subscribers'[n'];
    forall n', h | n' in subscribers' && h in subscribers'[n']
      ensures HandlerOkIn(modifiers', stats, n', h)
    {
      if n' in subscribers && h in subscribers[n'] {
        assert HandlerOkIn(modifiers, stats, n', h);
      }
    }
  }

  lemma ConsistentAddModifier(values: map<NodeId, real>, modifiers: map<NodeId, Modifier>,
                              stats: map<StatId, StatNode>, caches: map<StatId, Cache>,
                              n: NodeId, r: Modifier, v: real)
    requires ConsistentIn(values, modifiers, stats, caches)
    requires n !in values && modifiers.Keys <= values.Keys
    requires forall s, m :: s in stats && m in stats[s].mods ==> m in modifiers
    requires forall s :: s in stats ==> stats[s].base in values
    requires forall m :: m in modifiers && modifiers[m].base.Some? ==> modifiers[m].base.value in values
    requires (r.base.Some? ==> r.base.value in values) && Consistent(r, v, values)
    ensures ConsistentIn(values[n := v], modifiers[n := r], stats, caches)
  {
    var values', modifiers' := values[n := v], modifiers[n := r];
    forall m | m in modifiers'
      ensures ModOkIn(modifiers', values', m)
    {
      if m != n {
        assert ModOkIn(modifiers, values, m);
      } else {
        assert BaseValue(r, values') == BaseValue(r, values);
      }
    }
    forall s | s in stats
      ensures StatOkIn(stats, caches, modifiers', values', s)
    {
      assert StatOkIn(stats, caches, modifiers, values, s);
      ActiveSumFrame(stats[s].mods, modifiers', values', modifiers, values);
    }
  }


  /** The invocation list of `n` once `h` has subscribed (`+=`). */
  function Subscribe(subscribers: map<NodeId, seq<Handler>>, n: NodeId, h: Handler): (r: map<NodeId, seq<Handler>>)
    requires n in subscribers
    ensures r.Keys == subscribers.Keys && r[n] == subscribers[n] + [h]
    ensures forall n' :: n' in subscribers && n' != n ==> r[n'] == subscribers[n']
  {
    subscribers[n := subscribers[n] + [h]]
  }

  /** A new stat listening to an existing base node, with no modifiers and
      marked dirty, disturbs nothing. */
  lemma ValidAddStat(values: map<NodeId, real>, subscribers: map<NodeId, seq<Handler>>,
                     modifiers: map<NodeId, Modifier>, stats: map<StatId, StatNode>,
                     caches: map<StatId, Cache>, nextNode: nat, nextStat: nat, b: NodeId)
    requires ValidIn(values, subscribers, modifiers, stats, caches, nextNode, nextStat)
    requires b in values
    ensures nextStat !in stats
    ensures ValidIn(values, Subscribe(subscribers, b, BaseChanged(nextStat)), modifiers,
                    stats[nextStat := StatNode(b, [])], caches[nextStat := Cache(true, 0.0)],
                    nextNode, nextStat + 1)
  {
    EdgesAddStat(subscribers, modifiers, stats, nextNode, nextStat, b);
    var stats', caches' := stats[nextStat := StatNode(b, [])], caches[nextStat := Cache(true, 0.0)];
    forall s | s in stats'
      ensures StatOkIn(stats', caches', modifiers, values, s)
    {
      if s != nextStat {
        assert StatOkIn(stats, caches, modifiers, values, s);
      }
    }
  }

  lemma EdgesAddStat(subscribers: map<NodeId, seq<Handler>>, modifiers: map<NodeId, Modifier>,
                     stats: map<StatId, StatNode>, nextNode: nat, s: StatId, b: NodeId)
    requires EdgesIn(subscribers, modifiers, stats, nextNode)
    requires b in subscribers && s !in stats
    ensures EdgesIn(Subscribe(subscribers, b, BaseChanged(s)), modifiers, stats[s := StatNode(b, [])], nextNode)
  {
    var subscribers' := Subscribe(subscribers, b, BaseChanged(s));
    var stats' := stats[s := StatNode(b, [])];
    assert forall n' :: n' in subscribers ==> forall h :: h in subscribers[n'] ==> h in subscribers'[n'];
    forall n', h | n' in subscribers' && h in subscribers'[n']
      ensures HandlerOkIn(modifiers, stats', n', h)
    {
      if h in subscribers[n'] {
        assert HandlerOkIn(modifiers, stats, n', h);
      }
    }
  }


  /** Reading a dirty stat keeps only its active modifiers and caches its
      aggregate: the arena stays consistent. */
  lemma ValidEvict(values: map<NodeId, real>, subscribers: map<NodeId, seq<Handler>>,
                   modifiers: map<NodeId, Modifier>, stats: map<StatId, StatNode>,
                   caches: map<StatId, Cache>, nextNode: nat, nextStat: nat, s: StatId)
    requires ValidIn(values, subscribers, modifiers, stats, caches, nextNode, nextStat)
    requires s in stats
    ensures ValidIn(values, subscribers, modifiers,
                    stats[s := StatNode(stats[s].base, ActiveOnly(stats[s].mods, modifiers))],
                    caches[s := Cache(false, AggregateIn(stats[s], modifiers, values))],
                    nextNode, nextStat)
  {
    var st := stats[s];
    var stats' := stats[s := StatNode(st.base, ActiveOnly(st.mods, modifiers))];
    var caches' := caches[s := Cache(false, AggregateIn(st, modifiers, values))];
    forall m | m in ActiveOnly(st.mods, modifiers)
      ensures m in st.mods && IsActive(m, modifiers)
    {
      ActiveOnlyKeeps(st.mods, modifiers, m);
    }
    EdgesEvict(subscribers, modifiers, stats, nextNode, s, ActiveOnly(st.mods, modifiers));
    forall t | t in stats'
      ensures StatOkIn(stats', caches', modifiers, values, t)
    {
      if t == s {
        ActiveSumOfActiveOnly(st.mods, modifiers, values);
      } else {
        assert StatOkIn(stats, caches, modifiers, values, t);
      }
    }
  }

  lemma EdgesEvict(subscribers: map<NodeId, seq<Handler>>, modifiers: map<NodeId, Modifier>,
                   stats: map<StatId, StatNode>, nextNode: nat, s: StatId, kept: seq<NodeId>)
    requires EdgesIn(subscribers, modifiers, stats, nextNode)
    requires s in stats && forall m :: m in kept ==> m in stats[s].mods
    ensures EdgesIn(subscribers, modifiers, stats[s := StatNode(stats[s].base, kept)], nextNode)
  {
    var stats' := stats[s := StatNode(stats[s].base, kept)];
    forall n', h | n' in subscribers && h in subscribers[n']
      ensures HandlerOkIn(modifiers, stats', n', h)
    {
      assert HandlerOkIn(modifiers, stats, n', h);
    }
  }


  /** The invocation list of `n` once `h` has unsubscribed (`-=`). */
  function Unsubscribe(subscribers: map<NodeId, seq<Handler>>, n: NodeId, h: Handler): (r: map<NodeId, seq<Handler>>)
    requires n in subscribers
    ensures r.Keys == subscribers.Keys && r[n] == RemoveLast(subscribers[n], h)
    ensures forall n' :: n' in subscribers && n' != n ==> r[n'] == subscribers[n']
  {
    subscribers[n := RemoveLast(subscribers[n], h)]
  }

  /** No stat other than `s` lists the modifier `m`. */
  predicate Unshared(stats: map<StatId, StatNode>, s: StatId, m: NodeId)
  {
    forall t :: t in stats && t != s ==> m !in stats[t].mods
  }

  /** The modifier map once `m`'s `IsActive` is set to `a`. */
  function SetActive(modifiers: map<NodeId, Modifier>, m: NodeId, a: bool): (r: map<NodeId, Modifier>)
    requires m in modifiers
    ensures r.Keys == modifiers.Keys && IsActive(m, r) == a
    ensures forall m' :: m' in modifiers && m' != m ==> r[m'] == modifiers[m']
  {
    modifiers[m := modifiers[m].(active := a)]
  }

  /** `Stat.AddModifier` on an unshared modifier keeps the arena consistent. */
  lemma ValidAddToStat(values: map<NodeId, real>, subscribers: map<NodeId, seq<Handler>>,
                       modifiers: map<NodeId, Modifier>, stats: map<StatId, StatNode>,
                       caches: map<StatId, Cache>, nextNode: nat, nextStat: nat, s: StatId, m: NodeId)
    requires ValidIn(values, subscribers, modifiers, stats, caches, nextNode, nextStat)
    requires s in stats && m in modifiers && Unshared(stats, s, m)
    ensures m in subscribers
    ensures ValidIn(values, Subscribe(subscribers, m, ModifierChanged(s)), SetActive(modifiers, m, true),
                    stats[s := StatNode(stats[s].base, stats[s].mods + [m])],
                    caches[s := caches[s].(dirty := true)], nextNode, nextStat)
  {
    EdgesAddToStat(subscribers, modifiers, stats, nextNode, s, m);
    ExclusiveAddToStat(stats, s, m);
    ConsistentAddToStat(values, modifiers, stats, caches, s, m);
  }

  lemma ExclusiveAddToStat(stats: map<StatId, StatNode>, s: StatId, m: NodeId)
    requires Exclusive(stats) && s in stats && Unshared(stats, s, m)
    ensures Exclusive(stats[s := StatNode(stats[s].base, stats[s].mods + [m])])
  {
    var stats' := stats[s := StatNode(stats[s].base, stats[s].mods + [m])];
    forall t, t', m' | t in stats' && t' in stats' && m' in stats'[t].mods && m' in stats'[t'].mods
      ensures t == t'
    {
      assert m' in stats[t].mods || m' == m;
      assert m' in stats[t'].mods || m' == m;
    }
  }

  lemma ConsistentAddToStat(values: map<NodeId, real>, modifiers: map<NodeId, Modifier>,
                            stats: map<StatId, StatNode>, caches: map<StatId, Cache>, s: StatId, m: NodeId)
    requires ConsistentIn(values, modifiers, stats, caches)
    requires s in stats && s in caches && m in modifiers && Unshared(stats, s, m)
    ensures ConsistentIn(values, SetActive(modifiers, m, true),
                         stats[s := StatNode(stats[s].base, stats[s].mods + [m])], caches[s := caches[s].(dirty := true)])
  {
    var modifiers' := SetActive(modifiers, m, true);
    var stats' := stats[s := StatNode(stats[s].base, stats[s].mods + [m])];
    var caches' := caches[s := caches[s].(dirty := true)];
    forall m' | m' in modifiers'
      ensures ModOkIn(modifiers', values, m')
    {
      assert ModOkIn(modifiers, values, m');
    }
    forall t | t in stats'
      ensures StatOkIn(stats', caches', modifiers', values, t)
    {
      if t != s {
        assert StatOkIn(stats, caches, modifiers, values, t);
        ActiveSumFrame(stats[t].mods, modifiers', values, modifiers, values);
      }
    }
  }

  lemma EdgesAddToStat(subscribers: map<NodeId, seq<Handler>>, modifiers: map<NodeId, Modifier>,
                       stats: map<StatId, StatNode>, nextNode: nat, s: StatId, m: NodeId)
    requires EdgesIn(subscribers, modifiers, stats, nextNode)
    requires s in stats && m in modifiers && Unshared(stats, s, m)
    ensures m in subscribers
    ensures EdgesIn(Subscribe(subscribers, m, ModifierChanged(s)), SetActive(modifiers, m, true),
                    stats[s := StatNode(stats[s].base, stats[s].mods + [m])], nextNode)
  {
    var subscribers' := Subscribe(subscribers, m, ModifierChanged(s));
    var modifiers' := SetActive(modifiers, m, true);
    var stats' := stats[s := StatNode(stats[s].base, stats[s].mods + [m])];
    assert forall n', h :: n' in subscribers && h in subscribers[n'] ==> h in subscribers'[n'];
    BaseEdgesKept(subscribers, modifiers, subscribers', modifiers');
    forall n', h | n' in subscribers' && h in subscribers'[n']
      ensures HandlerOkIn(modifiers', stats', n', h)
    {
      if h in subscribers[n'] {
        assert HandlerOkIn(modifiers, stats, n', h);
      }
    }
    StatEdgesAddToStat(subscribers, modifiers, stats, s, m);
  }

  lemma StatEdgesAddToStat(subscribers: map<NodeId, seq<Handler>>, modifiers: map<NodeId, Modifier>,
                           stats: map<StatId, StatNode>, s: StatId, m: NodeId)
    requires StatEdgesIn(subscribers, modifiers, stats)
    requires s in stats && m in modifiers && m in subscribers && Unshared(stats, s, m)
    ensures StatEdgesIn(Subscribe(subscribers, m, ModifierChanged(s)), SetActive(modifiers, m, true),
                        stats[s := StatNode(stats[s].base, stats[s].mods + [m])])
  {
    var subscribers' := Subscribe(subscribers, m, ModifierChanged(s));
    var modifiers' := SetActive(modifiers, m, true);
    var stats' := stats[s := StatNode(stats[s].base, stats[s].mods + [m])];
    forall t | t in stats'
      ensures stats'[t].base in subscribers' && BaseChanged(t) in subscribers'[stats'[t].base]
    {
      assert BaseChanged(t) in subscribers[stats[t].base];
    }
    forall t, m' | t in stats' && m' in stats'[t].mods
      ensures m' in modifiers' && (modifiers'[m'].active ==> ModifierChanged(t) in subscribers'[m'])
    {
      if m' != m {
        assert m' in stats[t].mods;
      } else if t == s {
        assert subscribers'[m] == subscribers[m] + [ModifierChanged(s)];
      } else {
        assert false;
      }
    }
  }

  /** Base edges survive any change that keeps every modifier's base and every
      refresh subscription. */
  lemma BaseEdgesKept(subscribers: map<NodeId, seq<Handler>>, modifiers: map<NodeId, Modifier>,
                      subscribers': map<NodeId, seq<Handler>>, modifiers': map<NodeId, Modifier>)
    requires BaseEdgesIn(subscribers, modifiers)
    requires forall m :: m in modifiers' ==> m in modifiers && modifiers'[m].base == modifiers[m].base
    requires forall n, m :: n in subscribers && RefreshModifier(m) in subscribers[n] ==>
               n in subscribers' && RefreshModifier(m) in subscribers'[n]
    ensures BaseEdgesIn(subscribers', modifiers')
  {
  }

  /** Handlers stay sound when invocation lists only lose entries, every
      modifier keeps its base and no stat goes away. */
  lemma HandlersOkKept(subscribers: map<NodeId, seq<Handler>>, modifiers: map<NodeId, Modifier>, stats: map<StatId, StatNode>,
                       subscribers': map<NodeId, seq<Handler>>, modifiers': map<NodeId, Modifier>, stats': map<StatId, StatNode>)
    requires HandlersOkIn(subscribers, modifiers, stats)
    requires forall n, h :: n in subscribers' && h in subscribers'[n] ==> n in subscribers && h in subscribers[n]
    requires forall m :: m in modifiers ==> m in modifiers' && modifiers'[m].base == modifiers[m].base
    requires stats.Keys <= stats'.Keys
    ensures HandlersOkIn(subscribers', modifiers', stats')
  {
    forall n, h | n in subscribers' && h in subscribers'[n]
      ensures HandlerOkIn(modifiers', stats', n, h)
    {
      assert HandlerOkIn(modifiers, stats, n, h);
    }
  }

  /** `Stat.RemoveModifier` on an unshared modifier keeps the arena consistent. */
  lemma ValidRemoveFromStat(values: map<NodeId, real>, subscribers: map<NodeId, seq<Handler>>,
                            modifiers: map<NodeId, Modifier>, stats: map<StatId, StatNode>,
                            caches: map<StatId, Cache>, nextNode: nat, nextStat: nat, s: StatId, m: NodeId)
    requires ValidIn(values, subscribers, modifiers, stats, caches, nextNode, nextStat)
    requires s in stats && m in modifiers && Unshared(stats, s, m)
    ensures m in subscribers
    ensures ValidIn(values, Unsubscribe(subscribers, m, ModifierChanged(s)), SetActive(modifiers, m, false),
                    stats, caches[s := caches[s].(dirty := true)], nextNode, nextStat)
  {
    EdgesRemoveFromStat(subscribers, modifiers, stats, nextNode, s, m);
    ConsistentRemoveFromStat(values, modifiers, stats, caches, s, m);
  }

  lemma ConsistentRemoveFromStat(values: map<NodeId, real>, modifiers: map<NodeId, Modifier>,
                                 stats: map<StatId, StatNode>, caches: map<StatId, Cache>, s: StatId, m: NodeId)
    requires ConsistentIn(values, modifiers, stats, caches)
    requires s in stats && s in caches && m in modifiers && Unshared(stats, s, m)
    ensures ConsistentIn(values, SetActive(modifiers, m, false), stats, caches[s := caches[s].(dirty := true)])
  {
    var modifiers' := SetActive(modifiers, m, false);
    var caches' := caches[s := caches[s].(dirty := true)];
    forall m' | m' in modifiers'
      ensures ModOkIn(modifiers', values, m')
    {
      assert ModOkIn(modifiers, values, m');
    }
    forall t | t in stats
      ensures StatOkIn(stats, caches', modifiers', values, t)
    {
      if t != s {
        assert StatOkIn(stats, caches, modifiers, values, t);
        ActiveSumFrame(stats[t].mods, modifiers', values, modifiers, values);
      }
    }
  }

  lemma EdgesRemoveFromStat(subscribers: map<NodeId, seq<Handler>>, modifiers: map<NodeId, Modifier>,
                            stats: map<StatId, StatNode>, nextNode: nat, s: StatId, m: NodeId)
    requires EdgesIn(subscribers, modifiers, stats, nextNode)
    requires s in stats && m in modifiers && Unshared(stats, s, m)
    ensures m in subscribers
    ensures EdgesIn(Unsubscribe(subscribers, m, ModifierChanged(s)), SetActive(modifiers, m, false), stats, nextNode)
  {
    var subscribers' := Unsubscribe(subscribers, m, ModifierChanged(s));
    var modifiers' := SetActive(modifiers, m, false);
    BaseEdgesKept(subscribers, modifiers, subscribers', modifiers');
    HandlersOkKept(subscribers, modifiers, stats, subscribers', modifiers', stats);
    StatEdgesRemoveFromStat(subscribers, modifiers, stats, s, m);
  }

  lemma StatEdgesRemoveFromStat(subscribers: map<NodeId, seq<Handler>>, modifiers: map<NodeId, Modifier>,
                                stats: map<StatId, StatNode>, s: StatId, m: NodeId)
    requires StatEdgesIn(subscribers, modifiers, stats)
    requires s in stats && m in modifiers && m in subscribers && Unshared(stats, s, m)
    ensures StatEdgesIn(Unsubscribe(subscribers, m, ModifierChanged(s)), SetActive(modifiers, m, false), stats)
  {
    var subscribers' := Unsubscribe(subscribers, m, ModifierChanged(s));
    var modifiers' := SetActive(modifiers, m, false);
    forall t | t in stats
      ensures BaseChanged(t) in subscribers'[stats[t].base]
    {
      assert BaseChanged(t) in subscribers[stats[t].base];
    }
    forall t, m' | t in stats && m' in stats[t].mods && modifiers'[m'].active
      ensures ModifierChanged(t) in subscribers'[m']
    {
      assert ModifierChanged(t) in subscribers[m'];
    }
  }

  /** The invocation lists once `h` has been unsubscribed (`-=`) from each
      node of `ms`, the last entry first. */
  function Unsubscribed(subscribers: map<NodeId, seq<Handler>>, ms: seq<NodeId>, h: Handler): (r: map<NodeId, seq<Handler>>)
    requires forall m :: m in ms ==> m in subscribers
    ensures r.Keys == subscribers.Keys
  {
    if ms == [] then subscribers
    else
      var rest := Unsubscribed(subscribers, ms[1..], h);
      rest[ms[0] := RemoveLast(rest[ms[0]], h)]
  }

  /** Unsubscribing `h` takes nothing but copies of `h` out of the lists. */
  lemma {:induction false} UnsubscribedKeeps(subscribers: map<NodeId, seq<Handler>>, ms: seq<NodeId>, h: Handler,
                                             n: NodeId, h': Handler)
    requires forall m :: m in ms ==> m in subscribers
    requires n in subscribers
    ensures h' in Unsubscribed(subscribers, ms, h)[n] ==> h' in subscribers[n]
    ensures h' in subscribers[n] && h' != h ==> h' in Unsubscribed(subscribers, ms, h)[n]
  {
    if ms != [] {
      UnsubscribedKeeps(subscribers, ms[1..], h, n, h');
    }
  }

  /** The modifier map once every modifier of `ms` is deactivated. */
  function Deactivated(modifiers: map<NodeId, Modifier>, ms: seq<NodeId>): (r: map<NodeId, Modifier>)
    ensures r.Keys == modifiers.Keys
    ensures forall m :: m in modifiers ==> r[m].base == modifiers[m].base
    ensures forall m :: m in modifiers ==> (IsActive(m, r) <==> IsActive(m, modifiers) && m !in ms)
  {
    map m | m in modifiers :: if m in ms then modifiers[m].(active := false) else modifiers[m]
  }

  /** `Stat.RemoveAllModifiers` keeps the arena consistent. */
  lemma ValidClearStat(values: map<NodeId, real>, subscribers: map<NodeId, seq<Handler>>,
                       modifiers: map<NodeId, Modifier>, stats: map<StatId, StatNode>,
                       caches: map<StatId, Cache>, nextNode: nat, nextStat: nat, s: StatId)
    requires ValidIn(values, subscribers, modifiers, stats, caches, nextNode, nextStat)
    requires s in stats
    ensures forall m :: m in stats[s].mods ==> m in subscribers
    ensures ValidIn(values, Unsubscribed(subscribers, stats[s].mods, ModifierChanged(s)),
                    Deactivated(modifiers, stats[s].mods), stats[s := StatNode(stats[s].base, [])],
                    caches[s := caches[s].(dirty := true)], nextNode, nextStat)
  {
    EdgesClearStat(subscribers, modifiers, stats, nextNode, s);
    var stats' := stats[s := StatNode(stats[s].base, [])];
    assert Exclusive(stats') by {
      forall t, t', m | t in stats' && t' in stats' && m in stats'[t].mods && m in stats'[t'].mods
        ensures t == t'
      {
        assert m in stats[t].mods && m in stats[t'].mods;
      }
    }
    ConsistentClearStat(values, modifiers, stats, caches, s);
  }

  lemma ConsistentClearStat(values: map<NodeId, real>, modifiers: map<NodeId, Modifier>,
                            stats: map<StatId, StatNode>, caches: map<StatId, Cache>, s: StatId)
    requires ConsistentIn(values, modifiers, stats, caches) && Exclusive(stats)
    requires s in stats && s in caches
    ensures ConsistentIn(values, Deactivated(modifiers, stats[s].mods), stats[s := StatNode(stats[s].base, [])],
                         caches[s := caches[s].(dirty := true)])
  {
    var modifiers' := Deactivated(modifiers, stats[s].mods);
    var stats' := stats[s := StatNode(stats[s].base, [])];
    var caches' := caches[s := caches[s].(dirty := true)];
    forall m | m in modifiers'
      ensures ModOkIn(modifiers', values, m)
    {
      assert ModOkIn(modifiers, values, m);
    }
    forall t | t in stats'
      ensures StatOkIn(stats', caches', modifiers', values, t)
    {
      if t != s {
        assert StatOkIn(stats, caches, modifiers, values, t);
        forall m | m in stats[t].mods
          ensures Contribution(m, modifiers', values) == Contribution(m, modifiers, values)
        {
          assert m !in stats[s].mods;
        }
        ActiveSumFrame(stats[t].mods, modifiers', values, modifiers, values);
      }
    }
  }

  lemma EdgesClearStat(subscribers: map<NodeId, seq<Handler>>, modifiers: map<NodeId, Modifier>,
                       stats: map<StatId, StatNode>, nextNode: nat, s: StatId)
    requires EdgesIn(subscribers, modifiers, stats, nextNode) && Exclusive(stats)
    requires s in stats
    ensures forall m :: m in stats[s].mods ==> m in subscribers
    ensures EdgesIn(Unsubscribed(subscribers, stats[s].mods, ModifierChanged(s)),
                    Deactivated(modifiers, stats[s].mods), stats[s := StatNode(stats[s].base, [])], nextNode)
  {
    var ms := stats[s].mods;
    var subscribers' := Unsubscribed(subscribers, ms, ModifierChanged(s));
    var modifiers' := Deactivated(modifiers, ms);
    var stats' := stats[s := StatNode(stats[s].base, [])];
    UnsubscribedShrinks(subscribers, ms, ModifierChanged(s));
    BaseEdgesKept(subscribers, modifiers, subscribers', modifiers');
    HandlersOkKept(subscribers, modifiers, stats, subscribers', modifiers', stats');
    StatEdgesClearStat(subscribers, modifiers, stats, s);
  }

  /** After unsubscribing `h` from the nodes of `ms`, each list holds exactly
      the entries it held before that are not `h`, and possibly some copies of `h`. */
  lemma UnsubscribedShrinks(subscribers: map<NodeId, seq<Handler>>, ms: seq<NodeId>, h: Handler)
    requires forall m :: m in ms ==> m in subscribers
    ensures forall n, h' :: n in subscribers && h' in Unsubscribed(subscribers, ms, h)[n] ==> h' in subscribers[n]
    ensures forall n, h' :: n in subscribers && h' in subscribers[n] && h' != h ==> h' in Unsubscribed(subscribers, ms, h)[n]
  {
    forall n, h' | n in subscribers
      ensures h' in Unsubscribed(subscribers, ms, h)[n] ==> h' in subscribers[n]
      ensures h' in subscribers[n] && h' != h ==> h' in Unsubscribed(subscribers, ms, h)[n]
    {
      UnsubscribedKeeps(subscribers, ms, h, n, h');
    }
  }

  lemma StatEdgesClearStat(subscribers: map<NodeId, seq<Handler>>, modifiers: map<NodeId, Modifier>,
                           stats: map<StatId, StatNode>, s: StatId)
    requires StatEdgesIn(subscribers, modifiers, stats) && Exclusive(stats)
    requires s in stats && forall m :: m in stats[s].mods ==> m in subscribers
    requires forall n, h' :: n in subscribers && h' in subscribers[n] && h' != ModifierChanged(s) ==>
               h' in Unsubscribed(subscribers, stats[s].mods, ModifierChanged(s))[n]
    ensures StatEdgesIn(Unsubscribed(subscribers, stats[s].mods, ModifierChanged(s)),
                        Deactivated(modifiers, stats[s].mods), stats[s := StatNode(stats[s].base, [])])
  {
    var ms := stats[s].mods;
    var subscribers' := Unsubscribed(subscribers, ms, ModifierChanged(s));
    var modifiers' := Deactivated(modifiers, ms);
    var stats' := stats[s := StatNode(stats[s].base, [])];
    forall t | t in stats'
      ensures stats'[t].base in subscribers' && BaseChanged(t) in subscribers'[stats'[t].base]
    {
      assert BaseChanged(t) in subscribers[stats[t].base];
    }
    forall t, m | t in stats' && m in stats'[t].mods
      ensures m in modifiers' && (modifiers'[m].active ==> m in subscribers' && ModifierChanged(t) in subscribers'[m])
    {
      assert t != s && m in stats[t].mods && m !in ms;
      assert IsActive(m, modifiers') ==> ModifierChanged(t) in subscribers[m];
    }
  }

  /** The modifier map once `m`'s `_modValue` is set to `v`. */
  function Retuned(modifiers: map<NodeId, Modifier>, m: NodeId, v: real): (r: map<NodeId, Modifier>)
    requires m in modifiers
    ensures r.Keys == modifiers.Keys && r[m].magnitude == v
    ensures r[m].base == modifiers[m].base && r[m].rule == modifiers[m].rule && r[m].active == modifiers[m].active
  {
    modifiers[m := modifiers[m].(magnitude := v)]
  }

  /** Dependencies only follow bases, so they survive any change that keeps them. */
  lemma {:induction false} DependsOnSameBases(modifiers: map<NodeId, Modifier>, modifiers': map<NodeId, Modifier>, y: NodeId, x: NodeId)
    requires modifiers.Keys == modifiers'.Keys
    requires forall m :: m in modifiers ==> modifiers'[m].base == modifiers[m].base
    ensures DependsOn(modifiers', y, x) == DependsOn(modifiers, y, x)
    decreases y
  {
    if y in modifiers && modifiers[y].base.Some? && modifiers[y].base.value < y {
      DependsOnSameBases(modifiers, modifiers', modifiers[y].base.value, x);
    }
  }

  /** Right after `SetModValue` stored the new magnitude of `m`, before the
      refresh: the wiring holds, and everything but `m` is as consistent as before. */
  lemma RetuneBefore(values: map<NodeId, real>, subscribers: map<NodeId, seq<Handler>>,
                     modifiers: map<NodeId, Modifier>, stats: map<StatId, StatNode>,
                     caches: map<StatId, Cache>, nextNode: nat, nextStat: nat, m: NodeId, v: real)
    requires ValidIn(values, subscribers, modifiers, stats, caches, nextNode, nextStat)
    requires m in modifiers
    ensures WiredIn(subscribers, Retuned(modifiers, m, v), stats, nextNode, nextStat)
    ensures forall y :: y in modifiers && y != m ==> ModOkIn(Retuned(modifiers, m, v), values, y)
    ensures forall y :: y in modifiers && DependsOn(Retuned(modifiers, m, v), y, m) ==> y != m
    ensures forall t :: t in stats ==> StatOkIn(stats, caches, Retuned(modifiers, m, v), values, t)
  {
    EdgesRetune(subscribers, modifiers, stats, nextNode, m, v);
    RetuneOthersOk(values, modifiers, m, v);
    RetuneAcyclic(modifiers, m, v);
    RetuneStatsOk(values, modifiers, stats, caches, m, v);
  }

  lemma RetuneOthersOk(values: map<NodeId, real>, modifiers: map<NodeId, Modifier>, m: NodeId, v: real)
    requires m in modifiers
    requires forall y :: y in modifiers ==> ModOkIn(modifiers, values, y)
    ensures forall y :: y in modifiers && y != m ==> ModOkIn(Retuned(modifiers, m, v), values, y)
  {
    var modifiers' := Retuned(modifiers, m, v);
    forall y | y in modifiers && y != m
      ensures ModOkIn(modifiers', values, y)
    {
      assert ModOkIn(modifiers, values, y);
      assert modifiers'[y] == modifiers[y];
    }
  }

  lemma RetuneAcyclic(modifiers: map<NodeId, Modifier>, m: NodeId, v: real)
    requires m in modifiers
    ensures forall y :: y in modifiers && DependsOn(Retuned(modifiers, m, v), y, m) ==> y != m
  {
    var modifiers' := Retuned(modifiers, m, v);
    forall y | y in modifiers && DependsOn(modifiers', y, m)
      ensures y != m
    {
      DependsOnSameBases(modifiers, modifiers', y, m);
      DependsOnBelow(modifiers, y, m);
    }
  }

  lemma RetuneStatsOk(values: map<NodeId, real>, modifiers: map<NodeId, Modifier>, stats: map<StatId, StatNode>,
                      caches: map<StatId, Cache>, m: NodeId, v: real)
    requires m in modifiers
    requires forall t :: t in stats ==> StatOkIn(stats, caches, modifiers, values, t)
    ensures forall t :: t in stats ==> StatOkIn(stats, caches, Retuned(modifiers, m, v), values, t)
  {
    var modifiers' := Retuned(modifiers, m, v);
    forall t | t in stats
      ensures StatOkIn(stats, caches, modifiers', values, t)
    {
      assert StatOkIn(stats, caches, modifiers, values, t);
      ActiveSumFrame(stats[t].mods, modifiers', values, modifiers, values);
    }
  }

  lemma EdgesRetune(subscribers: map<NodeId, seq<Handler>>, modifiers: map<NodeId, Modifier>,
                    stats: map<StatId, StatNode>, nextNode: nat, m: NodeId, v: real)
    requires EdgesIn(subscribers, modifiers, stats, nextNode) && m in modifiers
    ensures EdgesIn(subscribers, Retuned(modifiers, m, v), stats, nextNode)
  {
    var modifiers' := Retuned(modifiers, m, v);
    BaseEdgesKept(subscribers, modifiers, subscribers, modifiers');
    HandlersOkKept(subscribers, modifiers, stats, subscribers, modifiers', stats);
    forall t, m' | t in stats && m' in stats[t].mods
      ensures m' in modifiers' && (modifiers'[m'].active ==> m' in subscribers && ModifierChanged(t) in subscribers[m'])
    {
      assert m' in modifiers && (modifiers[m'].active ==> m' in subscribers && ModifierChanged(t) in subscribers[m']);
    }
  }

  /** Once the refresh of `m` has run, the arena is consistent again. */
  lemma RetuneAfter(values0: map<NodeId, real>, values: map<NodeId, real>, subscribers: map<NodeId, seq<Handler>>,
                    modifiers: map<NodeId, Modifier>, stats: map<StatId, StatNode>,
                    caches0: map<StatId, Cache>, caches: map<StatId, Cache>, nextNode: nat, nextStat: nat, m: NodeId)
    requires WiredIn(subscribers, modifiers, stats, nextNode, nextStat)
    requires values.Keys == values0.Keys == subscribers.Keys && caches.Keys == caches0.Keys == stats.Keys
    requires m in modifiers && m in values
    requires modifiers[m].base.Some? ==> modifiers[m].base.value < m
    requires forall n :: n in values && n < m ==> values[n] == values0[n]
    requires Consistent(modifiers[m], values[m], values0)
    requires forall y :: y in modifiers && y != m ==> ModOkIn(modifiers, values0, y)
    requires forall y :: y in modifiers && y != m && ModOkIn(modifiers, values0, y) ==> ModOkIn(modifiers, values, y)
    requires forall t :: t in stats ==> StatOkIn(stats, caches0, modifiers, values0, t)
    requires forall t :: t in stats && StatOkIn(stats, caches0, modifiers, values0, t) ==> StatOkIn(stats, caches, modifiers, values, t)
    ensures ValidIn(values, subscribers, modifiers, stats, caches, nextNode, nextStat)
  {
    if modifiers[m].base.Some? {
      assert BaseValue(modifiers[m], values) == BaseValue(modifiers[m], values0);
    }
  }

  /** `d` added up `k` times. */
  function Times(k: nat, d: real): real
  {
    if k == 0 then 0.0 else d + Times(k - 1, d)
  }

  lemma {:induction false} TimesIsProduct(k: nat, d: real)
    ensures Times(k, d) == (k as real) * d
  {
    if k > 0 {
      TimesIsProduct(k - 1, d);
      assert ((k - 1) as real) * d + d == (k as real) * d;
    }
  }

  /** Toggling `m` changes a stat's sum by the change of `m`'s contribution,
      once per listed copy. */
  lemma {:induction false} ActiveSumSetActive(ms: seq<NodeId>, modifiers: map<NodeId, Modifier>, values: map<NodeId, real>,
                                              m: NodeId, a: bool)
    requires m in modifiers
    ensures ActiveSum(ms, SetActive(modifiers, m, a), values) ==
            ActiveSum(ms, modifiers, values) +
            Times(multiset(ms)[m], Contribution(m, SetActive(modifiers, m, a), values) - Contribution(m, modifiers, values))
  {
    if ms != [] {
      ActiveSumSetActive(ms[1..], modifiers, values, m, a);
      assert ms == [ms[0]] + ms[1..];
      if ms[0] == m {
        assert multiset(ms)[m] == multiset(ms[1..])[m] + 1;
      } else {
        assert multiset(ms)[m] == multiset(ms[1..])[m];
      }
    } else {
      assert multiset(ms)[m] == 0;
    }
  }

  /** After `Stat.AddModifier(m)` the stat's aggregate grows by `m`'s value
      once if `m` was already active, and once per copy now listed if it was
      not (re-adding a modifier that is still listed counts it twice). */
  lemma AddModifierAggregate(st: StatNode, modifiers: map<NodeId, Modifier>, values: map<NodeId, real>, m: NodeId)
    requires st.base in values && m in modifiers && m in values
    ensures AggregateIn(StatNode(st.base, st.mods + [m]), SetActive(modifiers, m, true), values) ==
            AggregateIn(st, modifiers, values) +
            (if IsActive(m, modifiers) then 1.0 else (multiset(st.mods)[m] + 1) as real) * values[m]
  {
    var modifiers' := SetActive(modifiers, m, true);
    ActiveSumConcat(st.mods, [m], modifiers', values);
    ActiveSumSetActive(st.mods, modifiers, values, m, true);
    assert ActiveSum([m], modifiers', values) == values[m];
    var k := multiset(st.mods)[m];
    TimesIsProduct(k, values[m]);
    TimesIsProduct(k, 0.0);
    if !IsActive(m, modifiers) {
      assert ((k + 1) as real) * values[m] == (k as real) * values[m] + values[m];
    }
  }

  /** After `Stat.RemoveModifier(m)` the stat's aggregate loses `m`'s value
      once per listed copy, if `m` was active. */
  lemma RemoveModifierAggregate(st: StatNode, modifiers: map<NodeId, Modifier>, values: map<NodeId, real>, m: NodeId)
    requires st.base in values && m in modifiers && m in values
    ensures AggregateIn(st, SetActive(modifiers, m, false), values) ==
            AggregateIn(st, modifiers, values) -
            (if IsActive(m, modifiers) then multiset(st.mods)[m] as real else 0.0) * values[m]
  {
    ActiveSumSetActive(st.mods, modifiers, values, m, false);
    TimesIsProduct(multiset(st.mods)[m], -values[m]);
    TimesIsProduct(multiset(st.mods)[m], 0.0);
  }

  /** Removing a modifier that was added to a stat not listing it restores the
      stat's aggregate and the modifier's invocation list. */
  lemma AddThenRemove(st: StatNode, subscribers: map<NodeId, seq<Handler>>, modifiers: map<NodeId, Modifier>,
                      values: map<NodeId, real>, m: NodeId, s: StatId)
    requires st.base in values && m in modifiers && m in values && m in subscribers && m !in st.mods
    ensures Unsubscribe(Subscribe(subscribers, m, ModifierChanged(s)), m, ModifierChanged(s)) == subscribers
    ensures AggregateIn(StatNode(st.base, st.mods + [m]), SetActive(SetActive(modifiers, m, true), m, false), values) ==
            AggregateIn(st, modifiers, values)
  {
    SubscribeThenUnsubscribe(subscribers[m], ModifierChanged(s));
    var modifiers' := SetActive(SetActive(modifiers, m, true), m, false);
    assert modifiers' == SetActive(modifiers, m, false);
    ActiveSumConcat(st.mods, [m], modifiers', values);
    assert ActiveSum([m], modifiers', values) == 0.0;
    forall m' | m' in st.mods
      ensures Contribution(m', modifiers', values) == Contribution(m', modifiers, values)
    {
      assert m' != m;
    }
    ActiveSumFrame(st.mods, modifiers', values, modifiers, values);
  }

  /** No stat lists the modifier `m`. */
  predicate Unlisted(stats: map<StatId, StatNode>, m: NodeId)
  {
    forall t :: t in stats ==> m !in stats[t].mods
  }

  /** Toggling a modifier no stat lists disturbs nothing. */
  lemma ValidToggleUnlisted(values: map<NodeId, real>, subscribers: map<NodeId, seq<Handler>>,
                            modifiers: map<NodeId, Modifier>, stats: map<StatId, StatNode>,
                            caches: map<StatId, Cache>, nextNode: nat, nextStat: nat, m: NodeId, a: bool)
    requires ValidIn(values, subscribers, modifiers, stats, caches, nextNode, nextStat)
    requires m in modifiers && Unlisted(stats, m)
    ensures ValidIn(values, subscribers, SetActive(modifiers, m, a), stats, caches, nextNode, nextStat)
  {
    var modifiers' := SetActive(modifiers, m, a);
    EdgesToggleUnlisted(subscribers, modifiers, stats, nextNode, m, a);
    forall m' | m' in modifiers'
      ensures ModOkIn(modifiers', values, m')
    {
      assert ModOkIn(modifiers, values, m');
    }
    forall t | t in stats
      ensures StatOkIn(stats, caches, modifiers', values, t)
    {
      assert StatOkIn(stats, caches, modifiers, values, t);
      forall m' | m' in stats[t].mods
        ensures Contribution(m', modifiers', values) == Contribution(m', modifiers, values)
      {
        assert m' != m;
      }
      ActiveSumFrame(stats[t].mods, modifiers', values, modifiers, values);
    }
  }

  lemma EdgesToggleUnlisted(subscribers: map<NodeId, seq<Handler>>, modifiers: map<NodeId, Modifier>,
                            stats: map<StatId, StatNode>, nextNode: nat, m: NodeId, a: bool)
    requires EdgesIn(subscribers, modifiers, stats, nextNode)
    requires m in modifiers && Unlisted(stats, m)
    ensures EdgesIn(subscribers, SetActive(modifiers, m, a), stats, nextNode)
  {
    var modifiers' := SetActive(modifiers, m, a);
    BaseEdgesKept(subscribers, modifiers, subscribers, modifiers');
    HandlersOkKept(subscribers, modifiers, stats, subscribers, modifiers', stats);
    forall t, m' | t in stats && m' in stats[t].mods
      ensures m' in modifiers' && (modifiers'[m'].active ==> m' in subscribers && ModifierChanged(t) in subscribers[m'])
    {
      assert m' != m;
    }
  }

  // ---------------------------------------------------------------------------
  // The arena

  class Graph {
    var values: map<NodeId, real>               // BindableFloat._value
    var subscribers: map<NodeId, seq<Handler>>  // BindableFloat.OnValueChanged
    var modifiers: map<NodeId, Modifier>        // the Modifier part of modifier nodes
    var stats: map<StatId, StatNode>
    var caches: map<StatId, Cache>
    var nextNode: nat
    var nextStat: nat

    /** The wiring and consistency every public operation keeps. */
    ghost predicate Valid()
      reads this
    {
      ValidIn(values, subscribers, modifiers, stats, caches, nextNode, nextStat)
    }

    /** The `Value` setter of a BindableFloat (or of a modifier refreshing
        itself): equality-gated store, then every handler in the invocation
        list runs in order, synchronously (`OnValueChanged.Invoke`). A
        modifier handler recomputes that modifier, which notifies in turn; a
        stat handler only marks the stat dirty. */
    method SetValue(x: NodeId, v: real)
      requires EdgesIn(subscribers, modifiers, stats, nextNode)
      requires values.Keys == subscribers.Keys && caches.Keys == stats.Keys && x in values
      requires forall m :: m in modifiers && DependsOn(modifiers, m, x) ==> ModOkIn(modifiers, values, m)
      modifies this`values, this`caches
      decreases nextNode - x, 2
      ensures values.Keys == old(values.Keys) && caches.Keys == old(caches.Keys)
      ensures forall s :: s in caches && old(caches[s].dirty) ==> caches[s].dirty
      ensures forall s :: s in caches && !caches[s].dirty ==> caches[s] == old(caches[s])
      ensures values[x] == v
      ensures forall n :: n in values && n < x ==> values[n] == old(values[n])
      // only `x` and what derives from it change
      ensures forall n :: n in values && n != x && !DependsOn(modifiers, n, x) ==> values[n] == old(values[n])
      // everything derived from x is recomputed, everything else stays consistent
      ensures forall m :: m in modifiers && DependsOn(modifiers, m, x) ==> ModOkIn(modifiers, values, m)
      ensures forall m :: m in modifiers && m != x && ModOkIn(modifiers, old(values), m) ==> ModOkIn(modifiers, values, m)
      // a change marks dirty every stat whose base is x or that lists x as an active modifier
      ensures v != old(values[x]) ==>
                forall s :: s in stats && (stats[s].base == x || (x in stats[s].mods && IsActive(x, modifiers))) ==> caches[s].dirty
      ensures forall s :: s in stats && StatOkIn(stats, old(caches), modifiers, old(values), s) ==>
                StatOkIn(stats, caches, modifiers, values, s)
      // and every stat listing a changed active modifier, however far down the cascade, is dirty
      ensures ToldIn(stats, modifiers, old(values), values, caches)
      ensures v == old(values[x]) ==> values == old(values) && caches == old(caches)
    {
      if v == values[x] {
        return;
      }
      values := values[x := v];
      var hs := subscribers[x];
      ChangeStarts(x, v, old(values), old(caches));
      Notify(x, v, hs, old(values), old(caches));
      ChangeEnds(x, v, hs, old(values), old(caches));
      ToldEnds(x, v, old(values));
    }

    /** `OnValueChanged.Invoke` after the store of `v` into `x`: the handlers
        run one after the other, in subscription order. */
    method Notify(x: NodeId, ghost v: real, hs: seq<Handler>,
                  ghost values0: map<NodeId, real>, ghost caches0: map<StatId, Cache>)
      requires EdgesIn(subscribers, modifiers, stats, nextNode)
      requires values.Keys == subscribers.Keys && caches.Keys == stats.Keys && x in subscribers && hs == subscribers[x]
      requires ProgressIn(modifiers, stats, values, caches, x, v, hs, 0, values0, caches0)
      modifies this`values, this`caches
      decreases nextNode - x, 1
      ensures values.Keys == old(values.Keys)
      ensures ProgressIn(modifiers, stats, values, caches, x, v, hs, |hs|, values0, caches0)
      ensures ToldIn(stats, modifiers, old(values), values, caches)
    {
      var i := 0;
      while i < |hs|
        invariant values.Keys == old(values.Keys)
        invariant ProgressIn(modifiers, stats, values, caches, x, v, hs, i, values0, caches0)
        invariant ToldIn(stats, modifiers, old(values), values, caches)
      {
        ghost var valuesPre, cachesPre := values, caches;
        Dispatch(x, v, hs, i, values0, caches0);
        ToldTrans(stats, modifiers, old(values), valuesPre, values, cachesPre, caches);
        i := i + 1;
      }
    }

    /** The stats listing `x` itself were told by its own handlers. */
    lemma ToldEnds(x: NodeId, v: real, values0: map<NodeId, real>)
      requires x in values0 && values.Keys == values0.Keys
      requires ToldIn(stats, modifiers, values0[x := v], values, caches)
      requires forall s :: s in stats && x in stats[s].mods && IsActive(x, modifiers) ==> s in caches && caches[s].dirty
      ensures ToldIn(stats, modifiers, values0, values, caches)
    {
      forall s, m | s in stats && m in stats[s].mods && IsActive(m, modifiers) && m in values0 && m in values &&
                    values[m] != values0[m]
        ensures s in caches && caches[s].dirty
      {
        if m != x {
          assert values[m] != values0[x := v][m];
        }
      }
    }

    /** Right after the store, before any handler ran: only `x` differs, so
        whatever neither derives from nor listens to `x` is undisturbed. */
    lemma ChangeStarts(x: NodeId, v: real, values0: map<NodeId, real>, caches0: map<StatId, Cache>)
      requires EdgesIn(subscribers, modifiers, stats, nextNode)
      requires values.Keys == subscribers.Keys && caches.Keys == stats.Keys && x in values0 && values == values0[x := v] && caches == caches0
      requires forall m :: m in modifiers && DependsOn(modifiers, m, x) ==> ModOkIn(modifiers, values0, m)
      ensures ProgressIn(modifiers, stats, values, caches, x, v, subscribers[x], 0, values0, caches0)
    {
      var hs := subscribers[x];
      assert hs[0..] == hs;
      DerivedStart(x, v, values0);
      ListenersStart(x, v, values0, caches0);
    }

    lemma DerivedStart(x: NodeId, v: real, values0: map<NodeId, real>)
      requires EdgesIn(subscribers, modifiers, stats, nextNode) && x in values0 && values == values0[x := v]
      requires values.Keys == subscribers.Keys
      requires forall m :: m in modifiers && DependsOn(modifiers, m, x) ==> ModOkIn(modifiers, values0, m)
      ensures forall m :: m in modifiers && DependsOn(modifiers, m, x) ==>
                ModOkIn(modifiers, values, m) || RefreshModifier(m) in subscribers[x]
      ensures forall m :: m in modifiers && m != x && !DependsOn(modifiers, m, x) && ModOkIn(modifiers, values0, m) ==>
                ModOkIn(modifiers, values, m)
    {
      forall m | m in modifiers && DependsOn(modifiers, m, x)
        ensures ModOkIn(modifiers, values, m) || RefreshModifier(m) in subscribers[x]
      {
        var b := modifiers[m].base.value;
        if b != x {
          DependsOnBelow(modifiers, m, x);
          DependsOnBelow(modifiers, b, x);
          assert values[m] == values0[m] && values[b] == values0[b];
        }
      }
      forall m | m in modifiers && m != x && !DependsOn(modifiers, m, x) && ModOkIn(modifiers, values0, m)
        ensures ModOkIn(modifiers, values, m)
      {
        if modifiers[m].base.Some? {
          var b := modifiers[m].base.value;
          assert b != x;
          assert values[b] == values0[b];
        }
      }
    }

    lemma ListenersStart(x: NodeId, v: real, values0: map<NodeId, real>, caches0: map<StatId, Cache>)
      requires EdgesIn(subscribers, modifiers, stats, nextNode) && x in values0 && x in subscribers && values == values0[x := v]
      ensures forall s :: s in stats && StatOkIn(stats, caches0, modifiers, values0, s) ==>
                StatOkIn(stats, caches0, modifiers, values, s) || BaseChanged(s) in subscribers[x] || ModifierChanged(s) in subscribers[x]
    {
      forall s | s in stats && StatOkIn(stats, caches0, modifiers, values0, s)
        ensures StatOkIn(stats, caches0, modifiers, values, s) || BaseChanged(s) in subscribers[x] || ModifierChanged(s) in subscribers[x]
      {
        if stats[s].base != x && (x !in stats[s].mods || !IsActive(x, modifiers)) {
          ActiveSumFrame(stats[s].mods, modifiers, values, modifiers, values0);
        }
      }
    }

    /** Once every handler ran, the change of `x` is complete. */
    lemma ChangeEnds(x: NodeId, v: real, hs: seq<Handler>, values0: map<NodeId, real>, caches0: map<StatId, Cache>)
      requires EdgesIn(subscribers, modifiers, stats, nextNode) && x in subscribers && hs == subscribers[x]
      requires ProgressIn(modifiers, stats, values, caches, x, v, hs, |hs|, values0, caches0)
      ensures forall m :: m in modifiers && DependsOn(modifiers, m, x) ==> ModOkIn(modifiers, values, m)
      ensures forall m :: m in modifiers && m != x && ModOkIn(modifiers, values0, m) ==> ModOkIn(modifiers, values, m)
      ensures forall s :: s in stats && (stats[s].base == x || (x in stats[s].mods && IsActive(x, modifiers))) ==> caches[s].dirty
      ensures forall s :: s in stats && StatOkIn(stats, caches0, modifiers, values0, s) ==> StatOkIn(stats, caches, modifiers, values, s)
    {
      assert hs[..|hs|] == hs;
      forall s | s in stats && (stats[s].base == x || (x in stats[s].mods && IsActive(x, modifiers)))
        ensures caches[s].dirty
      {
        if stats[s].base == x {
          assert BaseChanged(s) in hs;
        } else {
          assert ModifierChanged(s) in hs;
        }
      }
    }

    /** Runs the handler `hs[i]` of `x`'s invocation list. */
    method Dispatch(x: NodeId, ghost v: real, hs: seq<Handler>, i: nat,
                    ghost values0: map<NodeId, real>, ghost caches0: map<StatId, Cache>)
      requires EdgesIn(subscribers, modifiers, stats, nextNode)
      requires values.Keys == subscribers.Keys && caches.Keys == stats.Keys && x in subscribers && hs == subscribers[x] && i < |hs|
      requires ProgressIn(modifiers, stats, values, caches, x, v, hs, i, values0, caches0)
      modifies this`values, this`caches
      decreases nextNode - x, 0
      ensures ProgressIn(modifiers, stats, values, caches, x, v, hs, i + 1, values0, caches0)
      ensures values.Keys == old(values.Keys)
      ensures ToldStepIn(stats, modifiers, old(values), old(caches), values, caches)
    {
      assert hs[i] in subscribers[x];
      match hs[i]
      case RefreshModifier(m) =>
        // Modifier.HandleBaseValueChange: RefreshValue, i.e. Value = CalculateValue()
        ChildBefore(x, v, hs, i, values0, caches0, m);
        var c := Calculate(modifiers[m].rule, Some(values[x]), modifiers[m].magnitude).value;
        ghost var valuesPre, cachesPre := values, caches;
        SetValue(m, c);
        ChildAfter(x, v, hs, i, values0, caches0, m, c, valuesPre, cachesPre);
        ToldStepOf(stats, modifiers, valuesPre, cachesPre, values, caches);
      case BaseChanged(s) =>
        // Stat.HandleBaseValueChange: SetDirty
        ghost var cachesPre := caches;
        caches := caches[s := caches[s].(dirty := true)];
        StatTold(x, v, hs, i, values0, caches0, s, cachesPre);
        MarkedTold(stats, modifiers, values, cachesPre, s);
      case ModifierChanged(s) =>
        // Stat.HandleModifierValueChange: SetDirty
        ghost var cachesPre := caches;
        caches := caches[s := caches[s].(dirty := true)];
        StatTold(x, v, hs, i, values0, caches0, s, cachesPre);
        MarkedTold(stats, modifiers, values, cachesPre, s);
    }

    /** A modifier subscribed to `x` is about to refresh: it sits above `x`,
        and everything derived from it is consistent (a refresh pending below
        it would have to be subscribed to `x` too, but its base is `x`'s child). */
    lemma ChildBefore(x: NodeId, v: real, hs: seq<Handler>, i: nat,
                      values0: map<NodeId, real>, caches0: map<StatId, Cache>, m: NodeId)
      requires EdgesIn(subscribers, modifiers, stats, nextNode)
      requires values.Keys == subscribers.Keys && caches.Keys == stats.Keys && x in subscribers && hs == subscribers[x] && i < |hs| && hs[i] == RefreshModifier(m)
      requires ProgressIn(modifiers, stats, values, caches, x, v, hs, i, values0, caches0)
      ensures m in modifiers && modifiers[m].base == Some(x) && x < m < nextNode && m in values
      ensures forall m' :: m' in modifiers && DependsOn(modifiers, m', m) ==> ModOkIn(modifiers, values, m')
    {
      assert hs[i] in subscribers[x];
      forall m' | m' in modifiers && DependsOn(modifiers, m', m)
        ensures ModOkIn(modifiers, values, m')
      {
        DependsOnTransitive(modifiers, m', m, x);
        DependsOnBelow(modifiers, m', m);
        assert RefreshModifier(m') !in hs;
      }
    }

    /** The refresh of the child `m` of `x` is done: one handler more has run. */
    lemma ChildAfter(x: NodeId, v: real, hs: seq<Handler>, i: nat,
                     values0: map<NodeId, real>, caches0: map<StatId, Cache>, m: NodeId, c: real,
                     valuesPre: map<NodeId, real>, cachesPre: map<StatId, Cache>)
      requires i < |hs| && hs[i] == RefreshModifier(m)
      requires m in modifiers && modifiers[m].base == Some(x) && x < m
      requires ProgressIn(modifiers, stats, valuesPre, cachesPre, x, v, hs, i, values0, caches0)
      requires c == Calculate(modifiers[m].rule, Some(valuesPre[x]), modifiers[m].magnitude).value
      requires values.Keys == valuesPre.Keys && CachesKeptIn(cachesPre, caches)
      requires m in values && values[m] == c
      requires forall n :: n in values && n < m ==> values[n] == valuesPre[n]
      requires forall n :: n in values && n != m && !DependsOn(modifiers, n, m) ==> values[n] == valuesPre[n]
      requires forall m' :: m' in modifiers && m' != m && ModOkIn(modifiers, valuesPre, m') ==> ModOkIn(modifiers, values, m')
      requires forall s :: s in stats && StatOkIn(stats, cachesPre, modifiers, valuesPre, s) ==>
                 StatOkIn(stats, caches, modifiers, values, s)
      ensures ProgressIn(modifiers, stats, values, caches, x, v, hs, i + 1, values0, caches0)
    {
      ChildValues(modifiers, x, hs, i, m, values0, valuesPre, values);
      ChildStats(modifiers, stats, hs, i, m, values0, caches0, valuesPre, cachesPre, values, caches);
    }

    /** A stat listening to `x` has been marked dirty: one handler more has run. */
    lemma StatTold(x: NodeId, v: real, hs: seq<Handler>, i: nat,
                   values0: map<NodeId, real>, caches0: map<StatId, Cache>, s: StatId, cachesPre: map<StatId, Cache>)
      requires i < |hs| && (hs[i] == BaseChanged(s) || hs[i] == ModifierChanged(s)) && s in cachesPre
      requires ProgressIn(modifiers, stats, values, cachesPre, x, v, hs, i, values0, caches0)
      requires caches == cachesPre[s := cachesPre[s].(dirty := true)]
      ensures ProgressIn(modifiers, stats, values, caches, x, v, hs, i + 1, values0, caches0)
    {
      assert hs[i..] == [hs[i]] + hs[i + 1..];
      assert hs[..i + 1] == hs[..i] + [hs[i]];
    }

    // -------------------------------------------------------------------------
    // Construction

    /** An empty arena. */
    constructor ()
      ensures Valid()
      ensures values == map[] && subscribers == map[] && modifiers == map[]
      ensures stats == map[] && caches == map[] && nextNode == 0 && nextStat == 0
    {
      values, subscribers, modifiers := map[], map[], map[];
      stats, caches := map[], map[];
      nextNode, nextStat := 0, 0;
    }

    /** `new BindableFloat(value)`: the setter runs on an empty invocation list,
        so the node just stores the value. */
    method NewBindable(v: real) returns (n: NodeId)
      requires Valid()
      modifies this`values, this`subscribers, this`nextNode
      ensures Valid()
      ensures n == old(nextNode) && nextNode == n + 1 && n !in old(values)
      ensures values == old(values)[n := v] && subscribers == old(subscribers)[n := []]
    {
      n := nextNode;
      ValidAddNode(values, subscribers, modifiers, stats, caches, nextNode, nextStat, v);
      values := values[n := v];
      subscribers := subscribers[n := []];
      nextNode := nextNode + 1;
    }

    /** `new Modifier(modValue)`, `new Modifier(modValue, base)` and
        `new PercentModifier(modValue, base)` (a null base is `None`): the node
        starts at the magnitude, inactive; with a base it subscribes to the
        base and refreshes, which nobody hears yet. */
    method NewModifier(magnitude: real, base: Option<NodeId>, rule: Rule) returns (m: NodeId)
      requires Valid() && (base.Some? ==> base.value in values)
      modifies this`values, this`subscribers, this`modifiers, this`nextNode
      ensures Valid()
      ensures m == old(nextNode) && nextNode == m + 1 && m !in old(values)
      ensures modifiers == old(modifiers)[m := Modifier(magnitude, base, rule, false)]
      ensures values == old(values)[m := InitialValue(old(values), magnitude, base, rule)]
      ensures subscribers == SubscribedToBase(old(subscribers), m, base)
    {
      m := nextNode;
      ValidAddModifier(values, subscribers, modifiers, stats, caches, nextNode, nextStat, magnitude, base, rule);
      // BindableFloat(modValue) stores the magnitude; with a base the
      // modifier then subscribes to it and refreshes, on an invocation list
      // that is still empty
      values := values[m := InitialValue(values, magnitude, base, rule)];
      subscribers := SubscribedToBase(subscribers, m, base);
      modifiers := modifiers[m := Modifier(magnitude, base, rule, false)];
      nextNode := nextNode + 1;
    }
    /** `new Stat(base)`: subscribes to the base and marks itself dirty; the
        cached value starts at 0. */
    method NewStat(b: NodeId) returns (s: StatId)
      requires Valid() && b in values
      modifies this`subscribers, this`stats, this`caches, this`nextStat
      ensures Valid()
      ensures s == old(nextStat) && nextStat == s + 1 && s !in old(stats)
      ensures stats == old(stats)[s := StatNode(b, [])] && caches == old(caches)[s := Cache(true, 0.0)]
      ensures subscribers == Subscribe(old(subscribers), b, BaseChanged(s))
    {
      s := nextStat;
      stats := stats[s := StatNode(b, [])];
      caches := caches[s := Cache(true, 0.0)];
      subscribers := Subscribe(subscribers, b, BaseChanged(s));
      nextStat := nextStat + 1;
      ValidAddStat(values, old(subscribers), modifiers, old(stats), old(caches), nextNode, s, b);
    }

    /** `new Stat(value)`: a fresh BindableFloat holding `value` becomes the base. */
    method NewStatWithValue(v: real) returns (s: StatId)
      requires Valid()
      modifies this`values, this`subscribers, this`stats, this`caches, this`nextNode, this`nextStat
      ensures Valid()
      ensures s == old(nextStat) && nextStat == s + 1 && s !in old(stats)
      ensures old(nextNode) !in old(values) && nextNode == old(nextNode) + 1
      ensures stats == old(stats)[s := StatNode(old(nextNode), [])] && caches == old(caches)[s := Cache(true, 0.0)]
      ensures values == old(values)[old(nextNode) := v]
      ensures subscribers == old(subscribers)[old(nextNode) := [BaseChanged(s)]]
    {
      var b := NewBindable(v);
      ghost var subscribers1 := subscribers;
      s := NewStat(b);
      assert subscribers1 == old(subscribers)[b := []];
      assert subscribers == subscribers1[b := [] + [BaseChanged(s)]];
      assert [] + [BaseChanged(s)] == [BaseChanged(s)];
      assert old(subscribers)[b := []][b := [BaseChanged(s)]] == old(subscribers)[b := [BaseChanged(s)]];
    }
    // -------------------------------------------------------------------------
    // The BindableFloat API

    /** The public `Value` setter of a plain BindableFloat: a change reaches
        every modifier derived from it and marks dirty every stat listening
        along the way, and the arena stays consistent. */
    method Set(x: NodeId, v: real)
      requires Valid() && x in values && x !in modifiers
      modifies this`values, this`caches
      ensures Valid()
      ensures values[x] == v && values.Keys == old(values.Keys)
      ensures forall n :: n in values && n < x ==> values[n] == old(values[n])
      // only `x` and what derives from it change
      ensures forall n :: n in values && n != x && !DependsOn(modifiers, n, x) ==> values[n] == old(values[n])
      ensures v != old(values[x]) ==> forall s :: s in stats && stats[s].base == x ==> caches[s].dirty
      ensures ToldIn(stats, modifiers, old(values), values, caches)
      ensures forall s :: s in caches && !caches[s].dirty ==> caches[s] == old(caches[s])
      ensures v == old(values[x]) ==> values == old(values) && caches == old(caches)
    {
      SetValue(x, v);
    }
    // -------------------------------------------------------------------------
    // Reading a stat

    /** `Stat.CalculateValue`: walks the modifier list from the back, drops
        (`List.Remove`) each inactive entry it meets and adds up the values of
        the active ones. Returns the sum and the list as it is left. */
    method CalculateValue(s: StatId) returns (value: real, kept: seq<NodeId>)
      requires s in stats && stats[s].base in values
      requires forall m :: m in stats[s].mods ==> m in values
      ensures value == AggregateIn(stats[s], modifiers, values)
      ensures kept == ActiveOnly(stats[s].mods, modifiers)
    {
      var ms := stats[s].mods;
      if |ms| == 0 {
        assert ms == [];
        return values[stats[s].base], ms;
      }
      value := values[stats[s].base];
      var i := |ms| - 1;
      assert ms[..i + 1] == ms && ms[i + 1..] == [];
      while i >= 0
        invariant -1 <= i < |ms|
        invariant forall m :: m in ms ==> m in stats[s].mods
        invariant ActiveOnly(ms[..i + 1], modifiers) + ms[i + 1..] == ActiveOnly(stats[s].mods, modifiers)
        invariant value == values[stats[s].base] + ActiveSum(ms[i + 1..], modifiers, values)
        decreases i
      {
        var mod := ms[i];
        if !(mod in modifiers && modifiers[mod].active) {
          RemoveFirstInPrefix(ms, i, mod);
          ActiveOnlyRemoveInactive(ms[..i + 1], mod, modifiers);
          ms := RemoveFirst(ms, mod);
          i := i - 1;
          continue;
        }
        assert ms[i..][1..] == ms[i + 1..];
        ActiveOnlyConcat(ms[..i], [ms[i]], modifiers);
        assert ms[..i] + [ms[i]] == ms[..i + 1];
        value := value + values[ms[i]];
        i := i - 1;
      }
      assert ms[..0] == [] && ms[0..] == ms;
      assert ActiveOnly(ms[..0], modifiers) + ms == ms;
      ActiveSumOfActiveOnly(stats[s].mods, modifiers, values);
      kept := ms;
    }

    /** The `Value` getter of a Stat: a dirty stat recalculates, keeps the
        list its calculation left, caches the result and becomes clean. Either
        way the result is the base value plus the values of the active
        modifiers, counted with multiplicity. */
    method Value(s: StatId) returns (r: real)
      requires Valid() && s in stats
      modifies this`stats, this`caches
      ensures Valid()
      ensures r == AggregateIn(old(stats)[s], modifiers, values)
      ensures old(caches)[s].dirty ==>
                stats == old(stats)[s := StatNode(old(stats)[s].base, ActiveOnly(old(stats)[s].mods, modifiers))] &&
                caches == old(caches)[s := Cache(false, r)]
      ensures !old(caches)[s].dirty ==> stats == old(stats) && caches == old(caches) && r == old(caches)[s].value
    {
      if caches[s].dirty {
        var value, kept := CalculateValue(s);
        stats := stats[s := StatNode(stats[s].base, kept)];
        caches := caches[s := Cache(false, value)];
        ValidEvict(values, subscribers, modifiers, old(stats), old(caches), nextNode, nextStat, s);
      }
      r := caches[s].value;
    }
    // -------------------------------------------------------------------------
    // Attaching and detaching modifiers

    /** `Modifier.Activate`: only the flag changes; nobody is notified. */
    method Activate(m: NodeId)
      requires Valid() && m in modifiers && Unlisted(stats, m)
      modifies this`modifiers
      ensures Valid()
      ensures modifiers == SetActive(old(modifiers), m, true)
    {
      ValidToggleUnlisted(values, subscribers, modifiers, stats, caches, nextNode, nextStat, m, true);
      modifiers := SetActive(modifiers, m, true);
    }

    /** `Modifier.Deactivate`: only the flag changes; nobody is notified. */
    method Deactivate(m: NodeId)
      requires Valid() && m in modifiers && Unlisted(stats, m)
      modifies this`modifiers
      ensures Valid()
      ensures modifiers == SetActive(old(modifiers), m, false)
    {
      ValidToggleUnlisted(values, subscribers, modifiers, stats, caches, nextNode, nextStat, m, false);
      modifiers := SetActive(modifiers, m, false);
    }

    /** `Stat.SetDirty`. */
    method SetDirty(s: StatId)
      requires s in caches
      modifies this`caches
      ensures caches == old(caches)[s := old(caches)[s].(dirty := true)]
    {
      caches := caches[s := caches[s].(dirty := true)];
    }

    /** `Stat.AddModifier`: appends the modifier to the list (a second copy if
        it is already there), activates it, subscribes the stat to it and
        marks the stat dirty. */
    method AddModifier(s: StatId, m: NodeId)
      requires Valid() && s in stats && m in modifiers && Unshared(stats, s, m)
      modifies this`stats, this`modifiers, this`subscribers, this`caches
      ensures Valid()
      ensures stats == old(stats)[s := StatNode(old(stats)[s].base, old(stats)[s].mods + [m])]
      ensures modifiers == SetActive(old(modifiers), m, true)
      ensures subscribers == Subscribe(old(subscribers), m, ModifierChanged(s))
      ensures caches == old(caches)[s := old(caches)[s].(dirty := true)]
    {
      stats := stats[s := StatNode(stats[s].base, stats[s].mods + [m])];
      modifiers := SetActive(modifiers, m, true);                        // mod.Activate()
      subscribers := Subscribe(subscribers, m, ModifierChanged(s));
      caches := caches[s := caches[s].(dirty := true)];                  // SetDirty()
      ValidAddToStat(values, old(subscribers), old(modifiers), old(stats), old(caches), nextNode, nextStat, s, m);
    }

    /** `Stat.RemoveModifier`: deactivates the modifier, unsubscribes the
        stat from it (the last such subscription) and marks the stat dirty.
        The entry stays in the list until the next recalculation drops it. */
    method RemoveModifier(s: StatId, m: NodeId)
      requires Valid() && s in stats && m in modifiers && Unshared(stats, s, m)
      modifies this`modifiers, this`subscribers, this`caches
      ensures Valid()
      ensures modifiers == SetActive(old(modifiers), m, false)
      ensures subscribers == Unsubscribe(old(subscribers), m, ModifierChanged(s))
      ensures caches == old(caches)[s := old(caches)[s].(dirty := true)]
    {
      modifiers := SetActive(modifiers, m, false);                       // mod.Deactivate()
      subscribers := Unsubscribe(subscribers, m, ModifierChanged(s));
      caches := caches[s := caches[s].(dirty := true)];                  // SetDirty()
      ValidRemoveFromStat(values, old(subscribers), old(modifiers), stats, old(caches), nextNode, nextStat, s, m);
    }
    /** `Stat.RemoveAllModifiers`: walks the list from the back, unsubscribing
        the stat from each entry and deactivating it, then empties the list and
        marks the stat dirty. */
    method RemoveAllModifiers(s: StatId)
      requires Valid() && s in stats
      modifies this`stats, this`modifiers, this`subscribers, this`caches
      ensures Valid()
      ensures stats == old(stats)[s := StatNode(old(stats)[s].base, [])]
      ensures modifiers == Deactivated(old(modifiers), old(stats)[s].mods)
      ensures subscribers == Unsubscribed(old(subscribers), old(stats)[s].mods, ModifierChanged(s))
      ensures caches == old(caches)[s := old(caches)[s].(dirty := true)]
    {
      var ms := stats[s].mods;
      ghost var subscribers0, modifiers0, stats0, caches0 := subscribers, modifiers, stats, caches;
      assert forall m :: m in ms ==> m in modifiers && m in subscribers;
      DetachAll(s, ms);
      stats := stats[s := StatNode(stats[s].base, [])];
      caches := caches[s := caches[s].(dirty := true)];
      ValidClearStat(values, subscribers0, modifiers0, stats0, caches0, nextNode, nextStat, s);
    }

    /** The loop of `Stat.RemoveAllModifiers`: from the back of the list,
        unsubscribe the stat from each entry, then deactivate it. */
    method DetachAll(s: StatId, ms: seq<NodeId>)
      requires forall m :: m in ms ==> m in modifiers && m in subscribers
      modifies this`modifiers, this`subscribers
      ensures modifiers == Deactivated(old(modifiers), ms)
      ensures subscribers == Unsubscribed(old(subscribers), ms, ModifierChanged(s))
    {
      var i := |ms| - 1;
      assert ms[i + 1..] == [];
      while i >= 0
        invariant -1 <= i < |ms|
        invariant modifiers == Deactivated(old(modifiers), ms[i + 1..])
        invariant subscribers == Unsubscribed(old(subscribers), ms[i + 1..], ModifierChanged(s))
        decreases i
      {
        var mod := ms[i];
        assert ms[i..][1..] == ms[i + 1..] && ms[i..][0] == mod;
        subscribers := subscribers[mod := RemoveLast(subscribers[mod], ModifierChanged(s))];
        modifiers := SetActive(modifiers, mod, false);
        assert modifiers == Deactivated(old(modifiers), ms[i..]);
        i := i - 1;
      }
      assert ms[0..] == ms;
    }
    /** `Modifier.SetModValue`: stores the new magnitude and refreshes. A
        percent modifier without a base throws on the refresh (null
        dereference): then `ok` is false and only the magnitude has changed. */
    method SetModValue(m: NodeId, v: real) returns (ok: bool)
      requires Valid() && m in modifiers
      modifies this`modifiers, this`values, this`caches
      ensures Valid()
      ensures modifiers == Retuned(old(modifiers), m, v)
      ensures ok <==> Calculate(modifiers[m].rule, BaseValue(modifiers[m], old(values)), v).Some?
      ensures ok ==> values[m] == Calculate(modifiers[m].rule, BaseValue(modifiers[m], old(values)), v).value
      ensures !ok ==> values == old(values) && caches == old(caches)
      ensures forall n :: n in values && n < m ==> values[n] == old(values[n])
      // only `m` and what derives from it change
      ensures values.Keys == old(values.Keys)
      ensures forall n :: n in values && n != m && !DependsOn(modifiers, n, m) ==> values[n] == old(values[n])
      ensures forall s :: s in caches && !caches[s].dirty ==> caches[s] == old(caches[s])
      ensures values[m] != old(values[m]) ==>
                forall s :: s in stats && (stats[s].base == m || (m in stats[s].mods && IsActive(m, modifiers))) ==> caches[s].dirty
      ensures ToldIn(stats, modifiers, old(values), values, caches)
    {
      RetuneBefore(values, subscribers, modifiers, stats, caches, nextNode, nextStat, m, v);
      modifiers := Retuned(modifiers, m, v);
      var r := modifiers[m];
      var c := Calculate(r.rule, BaseValue(r, values), v);
      if c.None? {
        return false;
      }
      SetValue(m, c.value);
      RetuneAfter(old(values), values, subscribers, modifiers, stats, old(caches), caches, nextNode, nextStat, m);
      ok := true;
    }
  }
}
