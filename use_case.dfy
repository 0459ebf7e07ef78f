/** The use case of Tests/UseCaseTestTypes.cs, on the first-generation stat
    graph: an avatar's six stats, equipment props that become modifiers, a
    per-stat snapshot of the modifier values applied, gear slots, and
    `Freeze`, which folds every stat's modifiers into its base. */
module UseCase {
  import opened Lists
  import opened Rules
  import opened Listing
  import opened StatGraph

  /** `AvatarStatType`: MaxHP, Attack, Defense, Speed, CritRate, CritDamage. */
  const StatCount: nat := 6
  type StatType = t: nat | t < StatCount
  const MaxHP: StatType := 0
  const Attack: StatType := 1
  const Defense: StatType := 2
  const Speed: StatType := 3
  const CritRate: StatType := 4
  const CritDamage: StatType := 5

  /** `GearType`: Head, Hand, Body, Feet, which index the gear slots. */
  const GearCount: nat := 4
  type GearType = t: nat | t < GearCount
  const Head: GearType := 0
  const Hand: GearType := 1
  const Body: GearType := 2
  const Feet: GearType := 3

  /** `AvatarConfig`: the six base values. */
  datatype Config = Config(maxHP: real, attack: real, defense: real, speed: real, critRate: real, critDamage: real)
  {
    function Of(t: StatType): real
    {
      match t
      case 0 => maxHP
      case 1 => attack
      case 2 => defense
      case 3 => speed
      case 4 => critRate
      case 5 => critDamage
    }
  }

  /** The field initialisers of `AvatarConfig`. */
  const DefaultConfig := Config(2000.0, 1000.0, 500.0, 100.0, 0.1, 0.5)

  /** `EquipmentProp`: the stat it modifies, its value, and whether the value
      is a fraction of the stat's base. */
  datatype Prop = Prop(statType: StatType, value: real, isPercent: bool)

  /** `CreateModifier`: a `PercentModifier(Value, stat.Base)` for a percent
      prop, a base-less `Modifier(Value)` otherwise. */
  function PropBase(p: Prop, b: NodeId): Option<NodeId>
  {
    if p.isPercent then Some(b) else None
  }

  function PropRule(p: Prop): Rule
  {
    if p.isPercent then Percent else Additive
  }

  /** The value of the modifier a prop creates on a stat whose base reads
      `base`: the prop's value, or that fraction of the base. */
  function PropValue(p: Prop, base: real): real
  {
    if p.isPercent then base * p.value else p.value
  }

  /** What the props, applied in order, add to the stat `t` whose base reads
      `base`: the sum of the modifier values of the props on `t`. */
  function Tally(props: seq<Prop>, t: StatType, base: real): real
  {
    if props == [] then 0.0
    else
      var p := props[|props| - 1];
      Tally(props[..|props| - 1], t, base) + (if p.statType == t then PropValue(p, base) else 0.0)
  }

  /** Props applied one after another add up. */
  lemma {:induction false} TallyConcat(a: seq<Prop>, b: seq<Prop>, t: StatType, base: real)
    ensures Tally(a + b, t, base) == Tally(a, t, base) + Tally(b, t, base)
  {
    if b == [] {
      assert a + b == a;
    } else {
      var n := |b| - 1;
      assert (a + b)[..|a + b| - 1] == a + b[..n];
      TallyConcat(a, b[..n], t, base);
    }
  }

  /** Props of other stats add nothing to `t`. */
  lemma {:induction false} TallyOther(props: seq<Prop>, t: StatType, base: real)
    requires forall i :: 0 <= i < |props| ==> props[i].statType != t
    ensures Tally(props, t, base) == 0.0
  {
    if props != [] {
      TallyOther(props[..|props| - 1], t, base);
    }
  }

  /** Flat props add their values whatever the base: only percent props read it. */
  lemma {:induction false} TallyFlat(props: seq<Prop>, t: StatType, base: real, base': real)
    requires forall i :: 0 <= i < |props| ==> !props[i].isPercent
    ensures Tally(props, t, base) == Tally(props, t, base')
  {
    if props != [] {
      TallyFlat(props[..|props| - 1], t, base, base');
    }
  }

  // ---------------------------------------------------------------------------
  // Stats<E>.Snapshot

  /** `Stats<E>.Snapshot`: one accumulator per stat index. */
  class Snapshot {
    var dict: map<int, real>   // _dict

    /** Every stat index has an entry. */
    ghost predicate Ready()
      reads this
    {
      forall t :: 0 <= t < StatCount ==> t in dict
    }

    /** `new Snapshot()` runs `Init`. */
    constructor ()
      ensures Ready() && forall t :: 0 <= t < StatCount ==> dict[t] == 0.0
    {
      dict := map[];
      new;
      Init();
    }

    /** `Init()`: sets the entry of every stat index `0..n-1` to 0 and keeps
        any other entry. */
    method Init()
      modifies this
      ensures Ready() && forall t :: 0 <= t < StatCount ==> dict[t] == 0.0
      ensures forall k :: k in dict <==> k in old(dict) || 0 <= k < StatCount
      ensures forall k :: k in old(dict) && !(0 <= k < StatCount) ==> dict[k] == old(dict)[k]
    {
      var i := 0;
      while i < StatCount
        invariant 0 <= i <= StatCount
        invariant forall t :: 0 <= t < i ==> t in dict && dict[t] == 0.0
        invariant forall k :: k in dict <==> k in old(dict) || 0 <= k < i
        invariant forall k :: k in old(dict) && !(0 <= k < i) ==> dict[k] == old(dict)[k]
      {
        dict := dict[i := 0.0];
        i := i + 1;
      }
    }

    /** `Add(t, v)`: `_dict[t] += v`, which throws when `t` has no entry
        (`ok` false, nothing changes). */
    method Add(t: int, v: real) returns (ok: bool)
      modifies this
      ensures ok == (t in old(dict))
      ensures ok ==> dict == old(dict)[t := old(dict)[t] + v]
      ensures !ok ==> dict == old(dict)
    {
      if t !in dict {
        return false;
      }
      dict := dict[t := dict[t] + v];
      ok := true;
    }
  }

  // ---------------------------------------------------------------------------
  // Stats<E> and AvatarStats

  /** A stat owns its modifiers: its base is a plain value, and each listed
      modifier is either base-less or built on that base. */
  ghost predicate OwnsMods(st: StatNode, modifiers: map<NodeId, Modifier>)
  {
    && st.base !in modifiers
    && forall m {:trigger m in st.mods} :: m in st.mods ==>
         m in modifiers && (modifiers[m].base.None? || modifiers[m].base == Some(st.base))
  }

  /** The stats registered under the keys of `dict` are in the arena and own
      their modifiers, and no two share a base: `owner` maps each base back
      to its index. */
  ghost predicate Owned(dict: map<int, StatId>, stats: map<StatId, StatNode>, modifiers: map<NodeId, Modifier>,
                        values: map<NodeId, real>, owner: map<NodeId, int>)
  {
    forall t {:trigger t in dict} :: t in dict ==>
      && dict[t] in stats && stats[dict[t]].base in values && OwnsMods(stats[dict[t]], modifiers)
      && stats[dict[t]].base in owner && owner[stats[dict[t]].base] == t
  }

  /** The arena as a `Stats<E>` reads it: its dictionary and the maps of
      the arena. */
  datatype View = View(dict: map<int, StatId>, stats: map<StatId, StatNode>,
                       modifiers: map<NodeId, Modifier>, values: map<NodeId, real>)
  {
    ghost predicate Has(t: int)
    {
      t in dict && dict[t] in stats && stats[dict[t]].base in values
    }

    /** `Get(t).Base.Value`. */
    ghost function Base(t: int): real
      requires Has(t)
    {
      values[stats[dict[t]].base]
    }

    /** `Get(t).Value`. */
    ghost function Value(t: int): real
      requires Has(t)
    {
      AggregateIn(stats[dict[t]], modifiers, values)
    }
  }

  /** Every prop names a stat registered in `dict`. */
  ghost predicate Registered(props: seq<Prop>, dict: map<int, StatId>)
  {
    forall k :: 0 <= k < |props| ==> props[k].statType in dict
  }

  /** From `v0` to `v1` the props, each on a registered stat, were applied:
      the dictionary stayed, and every registered stat kept its base value
      and grew by what `props` tally on it. */
  ghost predicate Grown(v0: View, v1: View, props: seq<Prop>)
  {
    && Registered(props, v0.dict)
    && v1.dict == v0.dict
    && forall t: StatType :: t in v0.dict ==>
         && v0.Has(t) && v1.Has(t)
         && v1.Base(t) == v0.Base(t)
         && v1.Value(t) == v0.Value(t) + Tally(props, t, v0.Base(t))
  }

  /** From `n0` to `n1` the snapshot kept its entries, and the entry of every
      registered stat of `v0` grew by what `props` tally on that stat. */
  ghost predicate Noted(v0: View, n0: map<int, real>, n1: map<int, real>, props: seq<Prop>)
  {
    && (forall k :: k in n1 <==> k in n0)
    && forall k :: k in n0 ==>
         n1[k] == n0[k] + (if 0 <= k < StatCount && v0.Has(k) then Tally(props, k, v0.Base(k)) else 0.0)
  }

  /** Growth by `a`, then by `b`, is growth by `a + b`. */
  lemma GrownTrans(v0: View, v1: View, v2: View, a: seq<Prop>, b: seq<Prop>)
    requires Grown(v0, v1, a) && Grown(v1, v2, b)
    ensures Grown(v0, v2, a + b)
  {
    forall k | 0 <= k < |a + b|
      ensures (a + b)[k].statType in v0.dict
    {
      if k >= |a| {
        assert (a + b)[k] == b[k - |a|];
      }
    }
    forall t: StatType | t in v0.dict
      ensures v2.Value(t) == v0.Value(t) + Tally(a + b, t, v0.Base(t))
    {
      TallyConcat(a, b, t, v0.Base(t));
    }
  }

  /** Snapshot growth by `a`, then by `b` over the grown arena, is growth by `a + b`. */
  lemma NotedTrans(v0: View, v1: View, n0: map<int, real>, n1: map<int, real>, n2: map<int, real>,
                   a: seq<Prop>, b: seq<Prop>)
    requires Grown(v0, v1, a) && Noted(v0, n0, n1, a) && Noted(v1, n1, n2, b)
    ensures Noted(v0, n0, n2, a + b)
  {
    forall k | k in n0 && 0 <= k < StatCount && v0.Has(k)
      ensures n2[k] == n0[k] + Tally(a + b, k, v0.Base(k))
    {
      TallyConcat(a, b, k, v0.Base(k));
    }
  }

  /** `Stats<E>` over `AvatarStatType`: `_dict` maps a stat index to a stat
      of the arena `graph`. */
  class AvatarStats {
    const graph: Graph
    var dict: map<int, StatId>   // _dict
    ghost var owner: map<NodeId, int>

    ghost predicate Valid()
      reads this, graph
    {
      && graph.Valid()
      && Owned(dict, graph.stats, graph.modifiers, graph.values, owner)
    }

    constructor (g: Graph)
      requires g.Valid()
      ensures Valid() && graph == g && dict == map[]
    {
      graph := g;
      dict, owner := map[], map[];
    }

    /** `Get(t).Base.Value`. */
    ghost function BaseOf(t: int): real
      requires Valid() && t in dict
      reads this, graph
    {
      graph.values[graph.stats[dict[t]].base]
    }

    /** `Get(t).Value`: the base plus the active modifiers. */
    ghost function ValueOf(t: int): real
      requires Valid() && t in dict
      reads this, graph
    {
      AggregateIn(graph.stats[dict[t]], graph.modifiers, graph.values)
    }

    /** The modifier list of `Get(t)`. */
    ghost function ModsOf(t: int): seq<NodeId>
      requires Valid() && t in dict
      reads this, graph
    {
      graph.stats[dict[t]].mods
    }

    /** The arena as this `Stats<E>` reads it now. */
    ghost function Current(): View
      reads this, graph
    {
      View(dict, graph.stats, graph.modifiers, graph.values)
    }

    /** Index `t` holds a stat whose base and value are `v`, without
        modifiers: what `new Stat(v)` is. */
    ghost predicate Pristine(t: int, v: real)
      requires Valid()
      reads this, graph
    {
      t in dict && BaseOf(t) == v && ValueOf(t) == v && ModsOf(t) == []
    }

    /** Stats pristine at their configured values read as such in the
        current view. */
    lemma Configured(cfg: Config)
      requires Valid() && forall t :: 0 <= t < StatCount ==> Pristine(t, cfg.Of(t))
      ensures forall t: StatType :: Current().Has(t) && Current().Base(t) == cfg.Of(t) && Current().Value(t) == cfg.Of(t)
    {
      forall t: StatType
        ensures Current().Has(t) && Current().Base(t) == cfg.Of(t) && Current().Value(t) == cfg.Of(t)
      {
        assert Pristine(t, cfg.Of(t));
      }
    }

    /** Stats whose view reads the settled values read them through
        `ValueOf`. */
    lemma Valued(cfg: Config, props: seq<Prop>)
      requires Valid() && forall t: StatType :: Current().Has(t) && Current().Value(t) == Settled(cfg, props, t)
      ensures forall t: StatType :: t in dict && ValueOf(t) == Settled(cfg, props, t)
    {
      forall t: StatType
        ensures t in dict && ValueOf(t) == Settled(cfg, props, t)
      {
        assert Current().Has(t);
      }
    }

    /** One line of `Init`: `_dict[t] = new Stat(v)`. The index gets a new
        stat on a fresh base holding `v`; every other index keeps its stat,
        its base value, its value and its list. */
    method Register(t: StatType, v: real)
      requires Valid()
      modifies this, graph
      ensures Valid() && Pristine(t, v) && dict[t] !in old(graph.stats)
      ensures forall k :: k in dict <==> k in old(dict) || k == t
      ensures forall t' :: t' in old(dict) && t' != t ==>
        && dict[t'] == old(dict)[t']
        && BaseOf(t') == old(BaseOf(t')) && ValueOf(t') == old(ValueOf(t')) && ModsOf(t') == old(ModsOf(t'))
    {
      ghost var dict0, stats0, modifiers0, values0 := dict, graph.stats, graph.modifiers, graph.values;
      var s := graph.NewStatWithValue(v);
      dict := dict[t := s];
      owner := owner[graph.stats[s].base := t];
      RegisterCoupled(dict0, stats0, modifiers0, values0, graph.stats, graph.values, old(owner), t, s, v);
    }

    /** `AvatarStats.Init`: its six lines `_dict[t] = new Stat(cfg.X)`, one
        per stat index in declaration order. Afterwards every index holds a
        new stat at the configured value, without modifiers. */
    method Init(cfg: Config)
      requires Valid()
      modifies this, graph
      ensures Valid()
      ensures forall t :: 0 <= t < StatCount ==> Pristine(t, cfg.Of(t))
      ensures forall k :: k in dict <==> k in old(dict) || 0 <= k < StatCount
    {
      for t := 0 to StatCount
        invariant Valid()
        invariant forall j :: 0 <= j < t ==> Pristine(j, cfg.Of(j))
        invariant forall k :: k in dict <==> k in old(dict) || 0 <= k < t
      {
        Register(t, cfg.Of(t));
      }
    }

    /** `Stats.Get`: the stat at index `t`; `_dict[t]` throws on an index
        with no stat (`None`). */
    method Get(t: int) returns (s: Option<StatId>)
      requires Valid()
      ensures s.Some? <==> t in dict
      ensures s.Some? ==> s.value == dict[t] && s.value in graph.stats
    {
      s := if t in dict then Some(dict[t]) else None;
    }

    /** `AddEquipmentModifier`: the prop's modifier is created on the stat's
        base (percent) or without base (flat), appended to the stat's list,
        and its value returned: the prop's value, or that fraction of the
        base. That stat's value grows by exactly the returned value; every
        other stat's value and list, and every base, is as it was. `None`: no
        stat at that index, and nothing changes. */
    method AddEquipmentModifier(p: Prop) returns (r: Option<real>)
      requires Valid()
      modifies graph
      ensures Valid()
      ensures r.Some? <==> p.statType in dict
      ensures r.None? ==> graph.values == old(graph.values) && graph.stats == old(graph.stats) && graph.modifiers == old(graph.modifiers)
      ensures r.Some? ==> r.value == PropValue(p, old(BaseOf(p.statType)))
      ensures Grown(old(Current()), Current(), if r.Some? then [p] else [])
      ensures forall t :: t in dict && t != p.statType ==> ModsOf(t) == old(ModsOf(t))
      ensures r.Some? ==> |ModsOf(p.statType)| == |old(ModsOf(p.statType))| + 1 &&
                          ModsOf(p.statType)[..|old(ModsOf(p.statType))|] == old(ModsOf(p.statType))
    {
      var found := Get(p.statType);
      if found.None? {
        GrownByNothing(Current(), owner);
        return None;
      }
      ghost var values0, modifiers0, stats0 := graph.values, graph.modifiers, graph.stats;
      var m, v := AttachProp(graph, found.value, p);
      r := Some(v);
      AttachCoupled(dict, stats0, modifiers0, values0, graph.stats, graph.modifiers, graph.values, owner, p, p.statType, m, v);
    }

    /** One step of `Freeze`: `stat.Base.Value = stat.Value`, then
        `stat.RemoveAllModifiers()`. The stat's value moves into its base and
        its list empties; every stat keeps its value, and every other index
        its base value and its list. */
    method FreezeStat(t: int)
      requires Valid() && t in dict
      modifies graph
      ensures Valid() && Pristine(t, old(ValueOf(t)))
      ensures forall t' :: t' in dict && t' != t ==>
        BaseOf(t') == old(BaseOf(t')) && ValueOf(t') == old(ValueOf(t')) && ModsOf(t') == old(ModsOf(t'))
    {
      ghost var stats0, modifiers0, values0 := graph.stats, graph.modifiers, graph.values;
      ghost var stats1, values1 := FoldIntoBase(graph, dict[t]);
      FreezeCoupled(dict, stats0, modifiers0, values0, stats1, values1, owner, t);
    }

    /** `Freeze`: every stat, in the dictionary's enumeration order `order`,
        moves its value into its base and drops its modifiers. Afterwards
        every base holds the value its stat had, and every stat has that
        same value and no modifiers. */
    method Freeze(order: seq<int>)
      requires Valid() && Enumerates(dict, order)
      modifies graph
      ensures Valid()
      ensures forall t :: t in dict ==> Pristine(t, old(ValueOf(t)))
    {
      var i := 0;
      while i < |order|
        invariant 0 <= i <= |order|
        invariant Valid()
        invariant forall t :: t in dict ==> ValueOf(t) == old(ValueOf(t))
        invariant forall t :: t in order[..i] ==> Pristine(t, ValueOf(t))
      {
        FreezeStat(order[i]);
        forall t | t in order[..i + 1]
          ensures Pristine(t, ValueOf(t))
        {
          if t != order[i] {
            assert t in order[..i];
          }
        }
        i := i + 1;
      }
      assert order[..i] == order;
    }
  }

  /** `stat.Base.Value = stat.Value; stat.RemoveAllModifiers()` on the
      arena. `stats1` is the arena once reading the value has evicted the
      inactive entries of the list, `values1` the values once the base was
      set to that value. */
  method FoldIntoBase(g: Graph, s: StatId) returns (ghost stats1: map<StatId, StatNode>, ghost values1: map<NodeId, real>)
    requires g.Valid() && s in g.stats && g.stats[s].base !in g.modifiers
    modifies g
    ensures g.Valid()
    ensures var b := old(g.stats)[s].base;
      && (stats1 == old(g.stats) || stats1 == old(g.stats)[s := StatNode(b, ActiveOnly(old(g.stats)[s].mods, old(g.modifiers)))])
      && values1.Keys == old(g.values).Keys && values1[b] == AggregateIn(old(g.stats)[s], old(g.modifiers), old(g.values))
      && (forall n :: n in old(g.values) && n != b && !DependsOn(old(g.modifiers), n, b) ==> values1[n] == old(g.values)[n])
      && g.stats == stats1[s := StatNode(stats1[s].base, [])]
      && g.modifiers == Deactivated(old(g.modifiers), stats1[s].mods)
      && g.values == values1
  {
    var b := g.stats[s].base;
    var v := g.Value(s);
    stats1 := g.stats;
    g.Set(b, v);
    values1 := g.values;
    g.RemoveAllModifiers(s);
  }

  /** `stat.AddModifier(prop.CreateModifier(stat))` on the arena: a new
      modifier `m` on the stat's base (percent) or without base (flat), listed
      and activated by the stat, whose value `v` is the prop's value or that
      fraction of the base. */
  method AttachProp(g: Graph, s: StatId, p: Prop) returns (m: NodeId, v: real)
    requires g.Valid() && s in g.stats && g.stats[s].base !in g.modifiers
    modifies g
    ensures g.Valid()
    ensures var b := old(g.stats)[s].base;
      && m !in old(g.values) && m !in old(g.modifiers) && v == PropValue(p, old(g.values)[b])
      && g.stats == old(g.stats)[s := StatNode(b, old(g.stats)[s].mods + [m])]
      && g.modifiers == SetActive(old(g.modifiers)[m := Modifier(p.value, PropBase(p, b), PropRule(p), false)], m, true)
      && g.values == old(g.values)[m := v]
    ensures forall t :: t in old(g.stats) ==> m !in old(g.stats)[t].mods
  {
    var b := g.stats[s].base;
    ghost var values0, modifiers0, stats0, subscribers0 := g.values, g.modifiers, g.stats, g.subscribers;
    m := g.NewModifier(p.value, PropBase(p, b), PropRule(p));
    ListedAreNodes(stats0, modifiers0, values0, subscribers0, m);
    g.AddModifier(s, m);
    v := g.values[m];
    CreatedValue(p, values0, b);
  }

  /** `new Stat(v)` registered under `t`, seen on the arena maps: the stats
      still own their modifiers, the new one reads `v` with no modifiers,
      and every other index reads as before. */
  lemma RegisterCoupled(dict: map<int, StatId>, stats: map<StatId, StatNode>, modifiers: map<NodeId, Modifier>,
                        values: map<NodeId, real>, stats1: map<StatId, StatNode>, values1: map<NodeId, real>,
                        owner: map<NodeId, int>, t: int, s: StatId, v: real)
    requires Owned(dict, stats, modifiers, values, owner)
    requires s in stats1 && s !in stats && stats1 == stats[s := stats1[s]] && stats1[s].mods == []
    requires stats1[s].base !in values && stats1[s].base !in modifiers && values1 == values[stats1[s].base := v]
    ensures Owned(dict[t := s], stats1, modifiers, values1, owner[stats1[s].base := t])
    ensures values1[stats1[s].base] == v && AggregateIn(stats1[s], modifiers, values1) == v
    ensures forall t' :: t' in dict && t' != t ==>
      && values1[stats1[dict[t']].base] == values[stats[dict[t']].base]
      && AggregateIn(stats1[dict[t']], modifiers, values1) == AggregateIn(stats[dict[t']], modifiers, values)
      && stats1[dict[t']].mods == stats[dict[t']].mods
  {
    var b := stats1[s].base;
    forall t' | t' in dict && t' != t
      ensures AggregateIn(stats1[dict[t']], modifiers, values1) == AggregateIn(stats[dict[t']], modifiers, values)
    {
      AggregateFreshBase(stats[dict[t']], modifiers, values, b, v);
    }
  }

  /** `AttachProp` on the stat at `t`, seen on the arena maps: the stats
      still own their modifiers, the new modifier's value `v` adds to the
      value of `t`'s stat, and every other index, and every base, reads as
      before. */
  lemma AttachCoupled(dict: map<int, StatId>, stats: map<StatId, StatNode>, modifiers: map<NodeId, Modifier>,
                      values: map<NodeId, real>,
                      stats1: map<StatId, StatNode>, modifiers1: map<NodeId, Modifier>, values1: map<NodeId, real>,
                      owner: map<NodeId, int>, p: Prop, t: int, m: NodeId, v: real)
    requires Owned(dict, stats, modifiers, values, owner)
    requires t in dict && dict[t] in stats
    requires var b := stats[dict[t]].base;
      && m !in values && m !in modifiers
      && stats1 == stats[dict[t] := StatNode(b, stats[dict[t]].mods + [m])]
      && modifiers1 == SetActive(modifiers[m := Modifier(p.value, PropBase(p, b), PropRule(p), false)], m, true)
      && values1 == values[m := v]
    requires forall s :: s in stats ==> m !in stats[s].mods
    requires t == p.statType && v == PropValue(p, values[stats[dict[t]].base])
    ensures Owned(dict, stats1, modifiers1, values1, owner)
    ensures Grown(View(dict, stats, modifiers, values), View(dict, stats1, modifiers1, values1), [p])
    ensures forall t' :: t' in dict ==> values1[stats1[dict[t']].base] == values[stats[dict[t']].base]
    ensures forall t' :: t' in dict ==>
      AggregateIn(stats1[dict[t']], modifiers1, values1) == AggregateIn(stats[dict[t']], modifiers, values) + (if t' == t then v else 0.0)
    ensures forall t' :: t' in dict && t' != t ==> stats1[dict[t']].mods == stats[dict[t']].mods
  {
    var mod := Modifier(p.value, PropBase(p, stats[dict[t]].base), PropRule(p), false);
    assert modifiers1 == modifiers[m := mod.(active := true)];
    AddModifierOwned(dict, stats, modifiers, values, owner, t, m, mod, v);
    forall t' | t' in dict
      ensures AggregateIn(stats1[dict[t']], modifiers1, values1) ==
              AggregateIn(stats[dict[t']], modifiers, values) + (if t' == t then v else 0.0)
    {
      if t' == t {
        AddModifierAt(stats[dict[t]], modifiers, values, m, mod, v);
      } else {
        AggregateFresh(stats[dict[t']], modifiers, values, m, mod.(active := true), v);
      }
    }
  }

  /** Applying no prop changes nothing. */
  lemma GrownByNothing(v: View, owner: map<NodeId, int>)
    requires Owned(v.dict, v.stats, v.modifiers, v.values, owner)
    ensures Grown(v, v, [])
  {
  }

  /** A new value node that is no modifier and not the stat's base leaves
      the stat's value as it was. */
  lemma AggregateFreshBase(st: StatNode, modifiers: map<NodeId, Modifier>, values: map<NodeId, real>, b: NodeId, v: real)
    requires st.base in values && b !in values && b !in modifiers
    requires forall m :: m in st.mods ==> m in modifiers
    ensures AggregateIn(st, modifiers, values[b := v]) == AggregateIn(st, modifiers, values)
  {
    forall m | m in st.mods
      ensures Contribution(m, modifiers, values[b := v]) == Contribution(m, modifiers, values)
    {
    }
    ActiveSumFrame(st.mods, modifiers, values[b := v], modifiers, values);
  }

  /** The modifier `CreateModifier` builds for a prop starts at the prop's
      value, or at that fraction of the base. */
  lemma CreatedValue(p: Prop, values: map<NodeId, real>, b: NodeId)
    requires b in values
    ensures InitialValue(values, p.value, PropBase(p, b), PropRule(p)) == PropValue(p, values[b])
  {
  }

  /** A node not yet allocated is listed by no stat. */
  lemma ListedAreNodes(stats: map<StatId, StatNode>, modifiers: map<NodeId, Modifier>, values: map<NodeId, real>,
                       subscribers: map<NodeId, seq<Handler>>, m: NodeId)
    requires StatEdgesIn(subscribers, modifiers, stats) && modifiers.Keys <= subscribers.Keys
    requires values.Keys == subscribers.Keys && m !in values
    ensures forall s :: s in stats ==> m !in stats[s].mods
  {
  }

  /** A new node that is no stat's base and no stat lists leaves a stat's
      value as it was. */
  lemma AggregateFresh(st: StatNode, modifiers: map<NodeId, Modifier>, values: map<NodeId, real>,
                       m: NodeId, mod: Modifier, v: real)
    requires st.base in values && st.base != m && m !in st.mods
    ensures AggregateIn(st, modifiers[m := mod], values[m := v]) == AggregateIn(st, modifiers, values)
  {
    forall m' | m' in st.mods
      ensures Contribution(m', modifiers[m := mod], values[m := v]) == Contribution(m', modifiers, values)
    {
      assert m' != m;
    }
    ActiveSumFrame(st.mods, modifiers[m := mod], values[m := v], modifiers, values);
  }

  /** A new active modifier of value `v` appended to a stat's list adds `v`
      to the stat's value. */
  lemma AddModifierAt(st: StatNode, modifiers: map<NodeId, Modifier>, values: map<NodeId, real>, m: NodeId, mod: Modifier, v: real)
    requires st.base in values && m !in values && m !in st.mods && !mod.active
    ensures AggregateIn(StatNode(st.base, st.mods + [m]), SetActive(modifiers[m := mod], m, true), values[m := v]) ==
            AggregateIn(st, modifiers, values) + v
  {
    AggregateFresh(st, modifiers, values, m, mod, v);
    AddModifierAggregate(st, modifiers[m := mod], values[m := v], m);
    assert multiset(st.mods)[m] == 0;
  }

  /** A new modifier `m`, built on the base of `t`'s stat or on none, listed
      and activated by that stat, leaves the stats owning their modifiers. */
  lemma AddModifierOwned(dict: map<int, StatId>, stats: map<StatId, StatNode>, modifiers: map<NodeId, Modifier>,
                         values: map<NodeId, real>, owner: map<NodeId, int>, t: int, m: NodeId, mod: Modifier, v: real)
    requires Owned(dict, stats, modifiers, values, owner) && t in dict
    requires m !in values && m !in modifiers
    requires mod.base.None? || mod.base == Some(stats[dict[t]].base)
    ensures var s := dict[t];
            Owned(dict, stats[s := StatNode(stats[s].base, stats[s].mods + [m])],
                  modifiers[m := mod.(active := true)], values[m := v], owner)
  {
  }

  /** One step of `Freeze` on the stat at `t`, seen from another index `t'`:
      with the arena before (`stats`, `modifiers`, `values`), the values once
      `t`'s base was set (`values1`) and the entries `kept` of `t`'s list
      deactivated, `t'` keeps its base value and its value. */
  lemma FreezeOther(dict: map<int, StatId>, stats: map<StatId, StatNode>, modifiers: map<NodeId, Modifier>,
                    values: map<NodeId, real>, values1: map<NodeId, real>, owner: map<NodeId, int>,
                    kept: seq<NodeId>, t: int, t': int)
    requires Owned(dict, stats, modifiers, values, owner) && Exclusive(stats) && t in dict && t' in dict && t' != t
    requires forall m :: m in modifiers ==> m in values
    requires values1.Keys == values.Keys
    requires forall m :: m in kept ==> m in stats[dict[t]].mods
    requires forall n :: n in values && n != stats[dict[t]].base && !DependsOn(modifiers, n, stats[dict[t]].base) ==>
               values1[n] == values[n]
    ensures values1[stats[dict[t']].base] == values[stats[dict[t']].base]
    ensures AggregateIn(stats[dict[t']], Deactivated(modifiers, kept), values1) == AggregateIn(stats[dict[t']], modifiers, values)
  {
    var b := stats[dict[t]].base;
    var st := stats[dict[t']];
    assert !DependsOn(modifiers, st.base, b);
    forall m | m in st.mods
      ensures Contribution(m, Deactivated(modifiers, kept), values1) == Contribution(m, modifiers, values)
    {
      assert !DependsOn(modifiers, m, b);
      assert m !in stats[dict[t]].mods;
    }
    ActiveSumFrame(st.mods, Deactivated(modifiers, kept), values1, modifiers, values);
  }

  /** `Freeze` on the stat at `t`, seen on the arena maps: `stats1` is the
      arena once `Value` has evicted the inactive entries of `t`'s list,
      `values1` once `t`'s base was set to that value. With `t`'s list
      deactivated and emptied, the stats still own their modifiers, `t`'s
      base and value both read its old value, and every other index reads as
      before. */
  lemma FreezeCoupled(dict: map<int, StatId>, stats: map<StatId, StatNode>, modifiers: map<NodeId, Modifier>,
                      values: map<NodeId, real>, stats1: map<StatId, StatNode>, values1: map<NodeId, real>,
                      owner: map<NodeId, int>, t: int)
    requires Owned(dict, stats, modifiers, values, owner) && Exclusive(stats) && t in dict
    requires forall m :: m in modifiers ==> m in values
    requires var s := dict[t];
      stats1 == stats || stats1 == stats[s := StatNode(stats[s].base, ActiveOnly(stats[s].mods, modifiers))]
    requires var b := stats[dict[t]].base;
      && values1.Keys == values.Keys && values1[b] == AggregateIn(stats[dict[t]], modifiers, values)
      && forall n :: n in values && n != b && !DependsOn(modifiers, n, b) ==> values1[n] == values[n]
    ensures var s := dict[t];
      var stats2, modifiers2 := stats1[s := StatNode(stats1[s].base, [])], Deactivated(modifiers, stats1[s].mods);
      && Owned(dict, stats2, modifiers2, values1, owner)
      && values1[stats2[s].base] == AggregateIn(stats[s], modifiers, values)
      && AggregateIn(stats2[s], modifiers2, values1) == AggregateIn(stats[s], modifiers, values)
      && stats2[s].mods == []
      && forall t' :: t' in dict && t' != t ==>
           && values1[stats2[dict[t']].base] == values[stats[dict[t']].base]
           && AggregateIn(stats2[dict[t']], modifiers2, values1) == AggregateIn(stats[dict[t']], modifiers, values)
           && stats2[dict[t']].mods == stats[dict[t']].mods
  {
    var s := dict[t];
    var kept := stats1[s].mods;
    forall m | m in kept
      ensures m in stats[s].mods
    {
      if stats1 != stats {
        ActiveOnlyKeeps(stats[s].mods, modifiers, m);
      }
    }
    var stats2, modifiers2 := stats1[s := StatNode(stats1[s].base, [])], Deactivated(modifiers, kept);
    assert stats2 == stats[s := StatNode(stats[s].base, [])];
    forall t' | t' in dict && t' != t
      ensures values1[stats2[dict[t']].base] == values[stats[dict[t']].base]
      ensures AggregateIn(stats2[dict[t']], modifiers2, values1) == AggregateIn(stats[dict[t']], modifiers, values)
    {
      FreezeOther(dict, stats, modifiers, values, values1, owner, kept, t, t');
    }
  }

  // ---------------------------------------------------------------------------
  // Equipment

  /** `modValue = stats.AddEquipmentModifier(prop); modSnapshot.Add(prop.StatType,
      modValue)`: one prop of `Gear.Apply`. The prop's stat grows by the
      prop's modifier value and so does its snapshot entry; bases, other
      stats and other entries stay. `false`: no stat at that index, where
      `Get`'s `_dict[i]` throws `KeyNotFoundException` before anything
      changes. */
  method ApplyProp(stats: AvatarStats, snap: Snapshot, p: Prop) returns (ok: bool)
    requires stats.Valid() && snap.Ready()
    modifies stats.graph, snap
    ensures stats.Valid() && snap.Ready()
    ensures ok == (p.statType in stats.dict)
    ensures Grown(old(stats.Current()), stats.Current(), if ok then [p] else [])
    ensures Noted(old(stats.Current()), old(snap.dict), snap.dict, if ok then [p] else [])
  {
    ghost var v0 := stats.Current();
    var r := stats.AddEquipmentModifier(p);
    if r.None? {
      NotedNothing(v0, snap.dict);
      return false;
    }
    NotedOne(v0, snap.dict, p, r.value);
    ok := snap.Add(p.statType, r.value);
  }

  /** Noting no prop changes no entry. */
  lemma NotedNothing(v0: View, n0: map<int, real>)
    ensures Noted(v0, n0, n0, [])
  {
  }

  /** Noting one prop adds its modifier value to its stat's entry alone. */
  lemma NotedOne(v0: View, n0: map<int, real>, p: Prop, x: real)
    requires v0.Has(p.statType) && p.statType in n0 && x == PropValue(p, v0.Base(p.statType))
    ensures Noted(v0, n0, n0[p.statType := n0[p.statType] + x], [p])
  {
    var n1 := n0[p.statType := n0[p.statType] + x];
    forall k | k in n0
      ensures n1[k] == n0[k] + (if 0 <= k < StatCount && v0.Has(k) then Tally([p], k, v0.Base(k)) else 0.0)
    {
      if 0 <= k < StatCount && v0.Has(k) {
        assert [p][..0] == [];
        assert Tally([p], k, v0.Base(k)) == if p.statType == k then x else 0.0;
      }
    }
  }

  /** Growth and notes by `a`, then by `b`, are growth and notes by `a + b`. */
  lemma AppliedBoth(v0: View, v1: View, v2: View, n0: map<int, real>, n1: map<int, real>, n2: map<int, real>,
                    a: seq<Prop>, b: seq<Prop>)
    requires Grown(v0, v1, a) && Noted(v0, n0, n1, a)
    requires Grown(v1, v2, b) && Noted(v1, n1, n2, b)
    ensures Grown(v0, v2, a + b) && Noted(v0, n0, n2, a + b)
  {
    GrownTrans(v0, v1, v2, a, b);
    NotedTrans(v0, v1, n0, n1, n2, a, b);
  }

  /** One more prop of `props` applied: growth and notes by `props[..i]`,
      then by `props[i]`, are growth and notes by `props[..i + 1]`. */
  lemma AppliedStep(v0: View, v1: View, v2: View, n0: map<int, real>, n1: map<int, real>, n2: map<int, real>,
                    props: seq<Prop>, i: nat)
    requires i < |props|
    requires Grown(v0, v1, props[..i]) && Noted(v0, n0, n1, props[..i])
    requires Grown(v1, v2, [props[i]]) && Noted(v1, n1, n2, [props[i]])
    ensures Grown(v0, v2, props[..i + 1]) && Noted(v0, n0, n2, props[..i + 1])
  {
    AppliedBoth(v0, v1, v2, n0, n1, n2, props[..i], [props[i]]);
    assert props[..i + 1] == props[..i] + [props[i]];
  }

  /** The props in order, each through `ApplyProp`, stopping at the first
      whose stat has no entry: every stat grows by what the props tally on
      it, and so does its snapshot entry. */
  method ApplyProps(stats: AvatarStats, snap: Snapshot, props: seq<Prop>) returns (ok: bool)
    requires stats.Valid() && snap.Ready()
    modifies stats.graph, snap
    ensures stats.Valid() && snap.Ready()
    ensures ok ==> Grown(old(stats.Current()), stats.Current(), props)
    ensures !ok ==> !Registered(props, stats.dict)
    ensures ok ==> Noted(old(stats.Current()), old(snap.dict), snap.dict, props)
  {
    ok := true;
    NotedNothing(stats.Current(), snap.dict);
    assert props[..0] == [];
    var i := 0;
    while i < |props|
      invariant 0 <= i <= |props|
      invariant stats.Valid() && snap.Ready() && ok
      invariant Grown(old(stats.Current()), stats.Current(), props[..i])
      invariant Noted(old(stats.Current()), old(snap.dict), snap.dict, props[..i])
    {
      ghost var v1, n1 := stats.Current(), snap.dict;
      ok := ApplyProp(stats, snap, props[i]);
      if !ok {
        assert props[i].statType !in stats.dict;
        return;
      }
      AppliedStep(old(stats.Current()), v1, stats.Current(), old(snap.dict), n1, snap.dict, props, i);
      i := i + 1;
    }
    assert props[..i] == props;
  }

  /** `Gear`: its slot, its main prop and the list of sub-props `AddProp`
      appends to. */
  class Gear {
    const gearType: GearType   // Type
    const mainProp: Prop       // MainProp
    var subProps: seq<Prop>    // SubProps

    constructor (gearType: GearType, mainProp: Prop)
      ensures this.gearType == gearType && this.mainProp == mainProp && subProps == []
    {
      this.gearType, this.mainProp := gearType, mainProp;
      subProps := [];
    }

    /** The props `Apply` applies, in order. */
    function Props(): seq<Prop>
      reads this
    {
      [mainProp] + subProps
    }

    /** `AddProp`: appends to the sub-props and returns the gear itself. */
    method AddProp(p: Prop) returns (self: Gear)
      modifies this
      ensures self == this && subProps == old(subProps) + [p]
      ensures Props() == old(Props()) + [p]
    {
      subProps := subProps + [p];
      self := this;
    }

    /** `Apply`: the main prop, then the sub-props in order, each as a
        modifier on its stat with its value added to the snapshot. Every stat
        grows by what this gear's props tally on it, and so does its snapshot
        entry; bases stay. `false`: a prop names a stat with no entry, where
        `Dictionary`'s indexer throws in C#. */
    method Apply(stats: AvatarStats, snap: Snapshot) returns (ok: bool)
      requires stats.Valid() && snap.Ready()
      modifies stats.graph, snap
      ensures stats.Valid() && snap.Ready()
      ensures ok ==> Grown(old(stats.Current()), stats.Current(), Props())
      ensures !ok ==> !Registered(Props(), stats.dict)
      ensures ok ==> Noted(old(stats.Current()), old(snap.dict), snap.dict, Props())
    {
      ok := ApplyProps(stats, snap, Props());
    }
  }

  /** `Weapon`: a main prop and a sub-prop. */
  class Weapon {
    const mainProp: Prop   // MainProp
    const subProp: Prop    // SubProp

    constructor (mainProp: Prop, subProp: Prop)
      ensures this.mainProp == mainProp && this.subProp == subProp
    {
      this.mainProp, this.subProp := mainProp, subProp;
    }

    function Props(): seq<Prop>
    {
      [mainProp, subProp]
    }

    /** `Apply`: both props as modifiers on their stats, without a snapshot.
        Every stat grows by what the two props tally on it; bases stay.
        `false`: a prop names a stat with no entry, where `Dictionary`'s
        indexer throws; the main prop stays applied when only the sub prop
        fails. */
    method Apply(stats: AvatarStats) returns (ok: bool)
      requires stats.Valid()
      modifies stats.graph
      ensures stats.Valid()
      ensures ok == (mainProp.statType in stats.dict && subProp.statType in stats.dict)
      ensures ok ==> Grown(old(stats.Current()), stats.Current(), Props())
      ensures !ok ==> Grown(old(stats.Current()), stats.Current(), if mainProp.statType in stats.dict then [mainProp] else [])
    {
      assert [mainProp] + [subProp] == Props();
      ghost var v0 := stats.Current();
      var r := stats.AddEquipmentModifier(mainProp);
      if r.None? {
        return false;
      }
      ghost var v1 := stats.Current();
      r := stats.AddEquipmentModifier(subProp);
      ok := r.Some?;
      GrownTrans(v0, v1, stats.Current(), [mainProp], if ok then [subProp] else []);
      assert [mainProp] + [] == [mainProp];
    }
  }

  /** The props of the gears in slot order, skipping empty slots. */
  function PropsOf(gs: seq<Gear?>): seq<Prop>
    reads gs
  {
    if gs == [] then []
    else
      var g := gs[|gs| - 1];
      PropsOf(gs[..|gs| - 1]) + (if g == null then [] else g.Props())
  }

  /** Every stat index has an entry in `n`: the tally of `props` on that
      stat of `v0`, or 0 for an index `v0` has no stat for. */
  ghost predicate Tallied(v0: View, n: map<int, real>, props: seq<Prop>)
  {
    forall t: StatType :: t in n && n[t] == (if v0.Has(t) then Tally(props, t, v0.Base(t)) else 0.0)
  }

  /** A snapshot holding the tally of `a`, noted with `b` over the arena
      `a` grew, holds the tally of `a + b`. */
  lemma TalliedMore(v0: View, v1: View, n1: map<int, real>, n2: map<int, real>, a: seq<Prop>, b: seq<Prop>)
    requires Grown(v0, v1, a) && Tallied(v0, n1, a) && Noted(v1, n1, n2, b)
    ensures Tallied(v0, n2, a + b)
  {
    forall t: StatType
      ensures t in n2 && n2[t] == (if v0.Has(t) then Tally(a + b, t, v0.Base(t)) else 0.0)
    {
      if v0.Has(t) {
        TallyConcat(a, b, t, v0.Base(t));
      }
    }
  }

  /** `Gears[i].Apply(stats, ModValuesSnapshot)`: the gear in slot `i`
      applied after the slots before it. `false`: the slot is empty (a null
      dereference) or a prop of its gear names a stat with no entry. */
  method ApplySlot(stats: AvatarStats, snap: Snapshot, gs: seq<Gear?>, i: nat, ghost v0: View) returns (ok: bool)
    requires i < |gs| && stats.Valid() && snap.Ready() && null !in gs[..i]
    requires Grown(v0, stats.Current(), PropsOf(gs[..i])) && Tallied(v0, snap.dict, PropsOf(gs[..i]))
    modifies stats.graph, snap
    ensures stats.Valid() && snap.Ready()
    ensures ok ==> null !in gs[..i + 1]
    ensures ok ==> Grown(v0, stats.Current(), PropsOf(gs[..i + 1])) && Tallied(v0, snap.dict, PropsOf(gs[..i + 1]))
    ensures !ok ==> gs[i] == null || exists t: StatType :: t !in stats.dict
  {
    var gear := gs[i];
    if gear == null {
      return false;
    }
    ghost var v1, n1, applied := stats.Current(), snap.dict, PropsOf(gs[..i]);
    ok := gear.Apply(stats, snap);
    if !ok {
      ghost var props := gear.Props();
      ghost var k :| 0 <= k < |props| && props[k].statType !in stats.dict;
      return;
    }
    GrownTrans(v0, v1, stats.Current(), applied, gear.Props());
    TalliedMore(v0, v1, n1, snap.dict, applied, gear.Props());
    assert gs[..i + 1] == gs[..i] + [gear];
  }

  /** `GearLoadout`: one gear slot per `GearType`, and the snapshot `Apply`
      fills. */
  class GearLoadout {
    const gears: array<Gear?>    // Gears
    const snapshot: Snapshot     // ModValuesSnapshot

    /** `Gears = new Gear[4]`. */
    ghost predicate Valid()
    {
      gears.Length == GearCount
    }

    constructor ()
      ensures Valid() && fresh(gears) && fresh(snapshot)
      ensures forall i :: 0 <= i < GearCount ==> gears[i] == null
      ensures snapshot.Ready() && forall t :: 0 <= t < StatCount ==> snapshot.dict[t] == 0.0
    {
      gears := new Gear?[GearCount](_ => null);
      snapshot := new Snapshot();
    }

    /** `SetGear`: the gear goes into the slot of its type, replacing what
        was there; the other slots stay. */
    method SetGear(gear: Gear)
      requires Valid()
      modifies gears
      ensures gears[gear.gearType] == gear
      ensures forall i :: 0 <= i < GearCount && i != gear.gearType ==> gears[i] == old(gears[i])
    {
      gears[gear.gearType] := gear;
    }

    /** `Apply`: zeroes the snapshot, then applies every slot's gear in slot
        order and returns the snapshot. Every stat grows by what the props
        of all the gears tally on it, bases stay, and the snapshot holds
        exactly that tally per stat. `false`: an empty slot, or a prop that
        names a stat with no entry, where C# throws. */
    method Apply(stats: AvatarStats) returns (snap: Snapshot, ok: bool)
      requires Valid() && stats.Valid()
      modifies stats.graph, snapshot
      ensures snap == snapshot && stats.Valid() && snapshot.Ready()
      ensures ok ==> null !in gears[..]
      ensures ok ==> Grown(old(stats.Current()), stats.Current(), old(PropsOf(gears[..])))
      ensures ok ==> Tallied(old(stats.Current()), snapshot.dict, old(PropsOf(gears[..])))
      ensures !ok ==> null in gears[..] || exists t: StatType :: t !in stats.dict
    {
      snap := snapshot;
      snapshot.Init();
      GrownByNothing(stats.Current(), stats.owner);
      var gs := gears[..];
      ghost var all := PropsOf(gs);
      var i := 0;
      while i < gears.Length
        invariant 0 <= i <= gears.Length
        invariant stats.Valid() && snapshot.Ready()
        invariant Grown(old(stats.Current()), stats.Current(), PropsOf(gs[..i]))
        invariant Tallied(old(stats.Current()), snapshot.dict, PropsOf(gs[..i]))
        invariant null !in gs[..i]
      {
        ok := ApplySlot(stats, snapshot, gs, i, old(stats.Current()));
        if !ok {
          return;
        }
        i := i + 1;
      }
      assert gs[..i] == gs;
      assert PropsOf(gs) == all;
      ok := true;
    }
  }

  // ---------------------------------------------------------------------------
  // AvatarData

  /** `order` enumerates, each once, the stat indices `dict` will hold once
      `Init` has added every stat index to it. */
  ghost predicate EnumeratesInit(dict: map<int, StatId>, order: seq<int>)
  {
    && (forall i :: 0 <= i < |order| ==> order[i] in dict || 0 <= order[i] < StatCount)
    && (forall k :: k in dict ==> k in order)
    && (forall t :: 0 <= t < StatCount ==> t in order)
    && (forall i, j :: 0 <= i < j < |order| ==> order[i] != order[j])
  }

  /** Once `Init` has added every stat index, `order` enumerates the
      dictionary. */
  lemma EnumeratesAfterInit(d0: map<int, StatId>, d1: map<int, StatId>, order: seq<int>)
    requires EnumeratesInit(d0, order)
    requires forall k :: k in d1 <==> k in d0 || 0 <= k < StatCount
    ensures Enumerates(d1, order)
  {
  }

  /** The value a stat settles at: its configured value plus what `props`
      tally on it, each percent prop taken of the configured value. */
  function Settled(cfg: Config, props: seq<Prop>, t: StatType): real
  {
    cfg.Of(t) + Tally(props, t, cfg.Of(t))
  }

  /** Stats that start pristine at their configured values and then grow
      by `props` end at the configured value plus the tally of `props`. */
  lemma GrownFromConfig(v1: View, v3: View, cfg: Config, props: seq<Prop>)
    requires forall t: StatType :: v1.Has(t) && v1.Base(t) == cfg.Of(t) && v1.Value(t) == cfg.Of(t)
    requires Grown(v1, v3, props)
    ensures forall t: StatType :: v3.Has(t) && v3.Value(t) == Settled(cfg, props, t)
  {
  }

  /** `AvatarData`: the configuration, the weapon, the gear loadout and the
      avatar's stats. */
  class AvatarData {
    var cfg: Config              // AvatarCfg
    var weapon: Weapon           // Weapon
    var loadout: GearLoadout     // GearLoadout
    const stats: AvatarStats     // Stats

    /** The field initialisers: the default configuration, a weapon with
        Attack +100 and CritRate +0.31, an empty loadout and stats without
        entries. */
    constructor (g: Graph)
      requires g.Valid()
      ensures cfg == DefaultConfig
      ensures weapon.Props() == [Prop(Attack, 100.0, false), Prop(CritRate, 0.31, false)]
      ensures fresh(loadout) && fresh(loadout.gears) && fresh(loadout.snapshot) && loadout.Valid()
      ensures forall i :: 0 <= i < GearCount ==> loadout.gears[i] == null
      ensures fresh(stats) && stats.graph == g && stats.Valid() && stats.dict == map[]
    {
      cfg := DefaultConfig;
      weapon := new Weapon(Prop(Attack, 100.0, false), Prop(CritRate, 0.31, false));
      loadout := new GearLoadout();
      stats := new AvatarStats(g);
    }

    /** The props `InitStats` applies, in order: the weapon's, then the
        gears' in slot order. */
    function Equipped(): seq<Prop>
      reads this, loadout.gears, loadout.gears[..]
    {
      weapon.Props() + PropsOf(loadout.gears[..])
    }

    /** `Weapon.Apply(Stats); GearLoadout.Apply(Stats)` on stats that hold
        every stat index: every stat grows by what the equipped props tally
        on it, bases stay. `false`: a gear slot is empty, where C# throws a
        null dereference. */
    method Equip() returns (ok: bool)
      requires stats.Valid() && loadout.Valid()
      requires forall t: StatType :: t in stats.dict
      modifies stats.graph, loadout.snapshot
      ensures stats.Valid()
      ensures ok == (null !in loadout.gears[..])
      ensures ok ==> Grown(old(stats.Current()), stats.Current(), old(Equipped()))
    {
      ghost var gearProps := PropsOf(loadout.gears[..]);
      ghost var v1 := stats.Current();
      var armed := weapon.Apply(stats);
      ghost var v2 := stats.Current();
      assert PropsOf(loadout.gears[..]) == gearProps;
      var snap, geared := loadout.Apply(stats);
      if !geared {
        return false;
      }
      GrownTrans(v1, v2, stats.Current(), weapon.Props(), gearProps);
      ok := true;
    }

    /** `Stats.SetConfig(AvatarCfg); Stats.Init()`, then `Equip`: every
        stat index holds a stat whose base is its configured value and whose
        value adds what the equipped props tally on it, each percent prop
        taken of the configured value. */
    method Prepare() returns (ok: bool)
      requires stats.Valid() && loadout.Valid()
      modifies stats, stats.graph, loadout.snapshot
      ensures stats.Valid()
      ensures forall k :: k in stats.dict <==> k in old(stats.dict) || 0 <= k < StatCount
      ensures ok == (null !in loadout.gears[..])
      ensures ok ==> forall t: StatType :: t in stats.dict && stats.ValueOf(t) == Settled(cfg, old(Equipped()), t)
    {
      ghost var equipped := Equipped();
      stats.Init(cfg);
      stats.Configured(cfg);
      ghost var v1 := stats.Current();
      assert Equipped() == equipped;
      ok := Equip();
      if ok {
        GrownFromConfig(v1, stats.Current(), cfg, equipped);
        stats.Valued(cfg, equipped);
      }
    }

    /** `InitStats`: `Init` from the configuration, the weapon's and the
        loadout's props, then `Freeze` in the dictionary's enumeration order
        `order`. Afterwards every stat is a plain stat whose base and value
        are its configured value plus what the equipped props tally on it,
        each percent prop taken of the configured value. `false`: a gear
        slot is empty, where C# throws a null dereference. */
    method InitStats(order: seq<int>) returns (ok: bool)
      requires stats.Valid() && loadout.Valid() && EnumeratesInit(stats.dict, order)
      modifies stats, stats.graph, loadout.snapshot
      ensures stats.Valid()
      ensures ok == (null !in loadout.gears[..])
      ensures ok ==> forall t: StatType :: stats.Pristine(t, Settled(cfg, old(Equipped()), t))
    {
      ok := Prepare();
      if ok {
        EnumeratesAfterInit(old(stats.dict), stats.dict, order);
        stats.Freeze(order);
      }
    }
  }
}
