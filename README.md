# NekoStats reactive stat graph in Dafny

This project models the core of NekoStats, a C# library for game
statistics. It covers the reactive stat graph in both of its generations,
the value holders it is built from, the dictionaries that register stats
under enum keys, and the avatar use case that the repository's tests
exercise.

- **Value holders.** There are three bindable-property holders:
  - `CC.Stats.BindableFloat` (`StatsBindable`);
  - `NekoLib.ReactiveProps.BindableProp<T>` and its typed wrappers (`ReactiveProps`);
  - `CC.Reactive.BindableProp<TData, TSelf>` (`Reactive`).

  Each is a class with the stored value, the event's invocation list and a
  ghost record of every handler call made so far. C# event semantics (`+=`
  appends, `-=` removes the last copy, an invocation calls each entry in
  order) live in `Events` and `Lists`.
- **First generation** (`StatGraph`: `Modifier`, `PercentModifier`, the lazy
  `Stat`).
  - Every `BindableFloat`, modifier and stat lives in one arena class `Graph`,
    held as maps from node id to value, invocation list, modifier record, and
    stat record with its cache.
  - A base is readonly and older than its modifier, so node ids grow along
    every dependency edge. This makes the depth-first notification terminate.
  - `Valid()` says several things:
    - the invocation lists are exactly the subscriptions the constructors and
      `AddModifier` made;
    - every modifier's value is its `CalculateValue`;
    - every clean stat caches its base plus its active modifiers.
- **Second generation** (`RelayGraph`: `BindableFloatRelay`, `StatModifier`,
  `StatModifierPercent`, the tick-driven `Stat`).
  - This is the same arena, with dependencies that can be rewired.
  - A ghost rank keeps the graph acyclic. Rewiring takes the new ranking as a
    ghost argument.
- **Rules.** `Rules` holds the two combination rules that both generations
  share.
- **Registries.** There are three `StatContainer<E>` versions:
  - `StatTable` (first generation);
  - `StatContainer` (the second generation's own container);
  - `StatRegistry` (the container over the `Stat` type it drives, which
    this model treats as an opaque reference; see "## Left out").
    `StatRegistry` records its calls on each stat as a trace.

  `Listing` holds the dictionary-and-list invariant that the two list-keeping
  versions share.
- **Use case** (`UseCase`: Tests/UseCaseTestTypes.cs).
  - The avatar's `Stats<E>` dictionary sits over the first-generation arena,
    with its `Snapshot`, weapon, gears, loadout and `InitStats`.
  - The proofs connect each state change to heap-free views and to the
    function `Settled`, the configured base plus the tally of every
    equipped prop.
- **Tests.** `StatsTest` and `UseCaseTest` restate the numbers that
  Tests/StatsTest.cs and Tests/UseCaseTest.cs assert.

Values are `real`. An enum is its index `0..n-1`. A thrown exception is a
`false`/`None` result. Where the state after it is not stated exactly,
"## Left out" names the member.

## Model

| member | source | states |
|---|---|---|
| Events.Invoke | Runtime/BindableProp.cs:36-39 | an invocation calls every entry of the list, in order, with the same argument, one call per entry |
| Events.InvokeCallsEachCopyOnce | Runtime/BindableProp.cs:36-39 | a handler subscribed k times is called exactly k times by one invocation |
| Lists.FirstIndex | Plugins/NekoLAB/NekoStats/Stat.cs:54 | the index `List.Remove` removes at: the element is there and nowhere before it |
| Lists.LastIndex | Runtime/BindableProp.cs:28 | the index a delegate `-=` removes at: the element is there and nowhere after it |
| Lists.RemoveFirst | Plugins/NekoLAB/NekoStats/Stat.cs:54 | `List.Remove`: an absent element leaves the list unchanged; a present one shortens it by one; no element is invented and every other element stays |
| Lists.RemoveLast | Runtime/BindableProp.cs:28 | delegate `-=`: the same, for the last occurrence |
| Lists.RemoveFirstAt | Plugins/NekoLAB/NekoStats/Stat.cs:54 | `RemoveFirst` cuts out exactly the entry at `FirstIndex` |
| Lists.RemoveLastAt | Runtime/BindableProp.cs:28 | `RemoveLast` cuts out exactly the entry at `LastIndex` |
| Lists.RemoveFirstMultiset | Plugins/NekoLAB/NekoStats/Stat.cs:54 | the removal takes away exactly one copy of the element (none if absent) |
| Lists.RemoveLastMultiset | Runtime/BindableProp.cs:28 | the same for the last copy |
| Lists.RemoveFirstInPrefix | Runtime/Stat.cs:104-111 | removing an element that occurs in `s[..i+1]` touches only that prefix, which the backward eviction loop relies on |
| Lists.SubscribeThenUnsubscribe | Runtime/BindableProp.cs:28 | `+=` then `-=` of the same handler restores the invocation list |
| Rules.Calculate | Runtime/Modifier.cs:66-83 | the calculation fails exactly for a percent modifier without a base (the unconditional `_base.Value`); otherwise it is `base + mod`, `mod`, or `base * mod` |
| StatsBindable.BindableFloat.constructor | Runtime/BindableProp.cs:30-34 | the holder starts at `v` with no subscriber; the empty delegate makes that call safe and delivers nothing |
| StatsBindable.BindableFloat.SetValue | Runtime/BindableProp.cs:17-26 | assigning the stored value changes nothing and notifies nobody; a different value is stored, then every subscriber is called once with the new value |
| StatsBindable.BindableFloat.BroadcastValueChange | Runtime/BindableProp.cs:36-39 | every subscriber is called once, in order, with the current value |
| StatsBindable.BindableFloat.Subscribe | Runtime/BindableProp.cs:28 | `+=` appends the handler |
| StatsBindable.BindableFloat.Unsubscribe | Runtime/BindableProp.cs:28 | `-=` removes its last occurrence |
| ReactiveProps.BindableProp.constructor | Runtime/ReactiveProps/BindableProp.cs:36-39 | the valued constructor stores `v` and raises no event |
| ReactiveProps.BindableProp.SetValue | Runtime/ReactiveProps/BindableProp.cs:15-24 | an `Equals`-equal value is a no-op; a different one is stored, then `ValueChanged` is raised once per subscriber with the new value; with no subscriber nothing is called |
| ReactiveProps.BindableProp.OnValueChanged | Runtime/ReactiveProps/BindableProp.cs:41-44 | `ValueChanged?.Invoke(Value)`: each subscriber called once with the current value |
| ReactiveProps.BindableProp.Subscribe | Runtime/ReactiveProps/BindableProp.cs:29 | `+=` appends the handler |
| ReactiveProps.BindableProp.Unsubscribe | Runtime/ReactiveProps/BindableProp.cs:29 | `-=` removes its last occurrence |
| ReactiveProps.NewBindableInt | Runtime/ReactiveProps/BindableProp.cs:48-54 | the parameterless `BindableInt` starts at 0 with no subscriber |
| ReactiveProps.NewBindableFloat | Runtime/ReactiveProps/BindableProp.cs:57-63 | `BindableFloat` starts at 0 with no subscriber |
| ReactiveProps.NewBindableDouble | Runtime/ReactiveProps/BindableProp.cs:66-72 | `BindableDouble` starts at 0 with no subscriber |
| ReactiveProps.NewBindableBool | Runtime/ReactiveProps/BindableProp.cs:75-81 | `BindableBool` starts at false with no subscriber |
| Reactive.BindableProp.constructor | Plugins/NekoLAB/NekoLib/Runtime/Core/ReactiveProps/BindableProp.cs:36-44 | the holder starts at `v` with an empty (never null) event and broadcasts nothing |
| Reactive.BindableProp.SetValue | Plugins/NekoLAB/NekoLib/Runtime/Core/ReactiveProps/BindableProp.cs:20-29 | an equal value is a no-op; a different one is stored, then each subscriber is called once with the holder itself, which already holds the new value |
| Reactive.BindableProp.BroadcastValueChange | Plugins/NekoLAB/NekoLib/Runtime/Core/ReactiveProps/BindableProp.cs:46-49 | each subscriber is called once with the holder |
| Reactive.BindableProp.Subscribe | Plugins/NekoLAB/NekoLib/Runtime/Core/ReactiveProps/BindableProp.cs:34 | `+=` appends the handler |
| Reactive.BindableProp.Unsubscribe | Plugins/NekoLAB/NekoLib/Runtime/Core/ReactiveProps/BindableProp.cs:34 | `-=` removes its last occurrence |
| StatGraph.Subscribe | Runtime/Stat.cs:60 | `+=` on one node's invocation list appends there and leaves every other node's list as it was |
| StatGraph.Unsubscribe | Runtime/Stat.cs:67 | `-=` on one node removes the last copy there and leaves every other list |
| StatGraph.SetActive | Runtime/Modifier.cs:44-52 | `Activate`/`Deactivate` set `IsActive` of that modifier and touch no other modifier |
| StatGraph.Deactivated | Runtime/Stat.cs:71-81 | after `RemoveAllModifiers` a modifier is active exactly when it was active and not listed; bases are kept |
| StatGraph.Unsubscribed | Runtime/Stat.cs:71-81 | after unsubscribing along the list, every node still has an invocation list (the key set is unchanged); `StatGraph.UnsubscribedKeeps` states the contents |
| StatGraph.UnsubscribedKeeps | Runtime/Stat.cs:71-81 | unsubscribing along the list adds no handler, and removes no handler other than the stat's |
| StatGraph.Retuned | Runtime/Modifier.cs:38-42 | `SetModValue` stores the magnitude and keeps base, rule and `IsActive` |
| StatGraph.DependsOnBelow | Runtime/Modifier.cs:24-34 | a modifier depends only on strictly older nodes, so its base is never itself and the notification recursion is well founded |
| StatGraph.DependsOnTransitive | Runtime/Modifier.cs:31-33 | dependency through bases is transitive |
| StatGraph.ActiveSumOfActiveOnly | Runtime/Stat.cs:100-115 | evicting the inactive modifiers leaves the stat's sum unchanged |
| StatGraph.ActiveSumSetActive | Runtime/Modifier.cs:44-52 | toggling `IsActive` of a modifier listed k times shifts the sum by k times its contribution change |
| StatGraph.AddModifierAggregate | Runtime/Stat.cs:52-62 | `AddModifier` raises the stat's value by the modifier's value, or by (copies+1) times it when the modifier was listed but inactive |
| StatGraph.RemoveModifierAggregate | Runtime/Stat.cs:64-69 | `RemoveModifier` lowers the value by every listed copy of an active modifier, and by nothing when it was already inactive |
| StatGraph.AddThenRemove | Runtime/Stat.cs:52-69 | adding then removing a fresh modifier restores the invocation lists and the stat's value |
| StatGraph.Graph.NewBindable | Runtime/BindableProp.cs:30-34 | a new node holding `v` with an empty invocation list, other nodes untouched |
| StatGraph.Graph.NewModifier | Runtime/Modifier.cs:19-34 | a new inactive modifier; it subscribes to its base if it has one and starts at `CalculateValue` |
| StatGraph.Graph.NewStat | Runtime/Stat.cs:43-48 | `Stat(base)` subscribes to the base and starts dirty with no modifiers |
| StatGraph.Graph.NewStatWithValue | Runtime/Stat.cs:38-41 | `Stat(v)` makes a new base node at `v` and a dirty stat over it. The stat's handler is the only one on the base's list. |
| StatGraph.Graph.SetValue | Runtime/BindableProp.cs:17-26 | after the setter and its depth-first notification, several things hold. The node holds `v`. Every modifier derived from it is recomputed. Nothing else changes value. Every stat whose base is the node, or that lists a changed active modifier anywhere down the cascade, is dirty. A clean cache still equals base plus active modifiers. An unchanged value does nothing. |
| StatGraph.Graph.Dispatch | Runtime/BindableProp.cs:36-39 | each handler of the list, in order, moves the notification one step further while keeping the invariants |
| StatGraph.Graph.Notify | Runtime/BindableProp.cs:36-39 | running the whole list completes the notification, and every stat listing an active modifier that changed on the way is dirty |
| StatGraph.Graph.Set | Runtime/BindableProp.cs:17-26 | assigning a plain node (a stat base) recomputes only what derives from it. It marks dirty the stats over it and every stat listing a changed active modifier. |
| StatGraph.Graph.CalculateValue | Runtime/Stat.cs:100-115 | the backward loop returns base plus the active modifiers' values, and the list with the inactive entries removed |
| StatGraph.Graph.Value | Runtime/Stat.cs:20-29 | the read is base plus active modifiers. When dirty, it evicts the inactive entries and caches the value. When clean, it returns the cache and changes nothing. |
| StatGraph.Graph.Activate | Runtime/Modifier.cs:44-47 | sets `IsActive`, keeps the arena valid |
| StatGraph.Graph.Deactivate | Runtime/Modifier.cs:49-52 | clears `IsActive`, keeps the arena valid |
| StatGraph.Graph.SetDirty | Runtime/Stat.cs:83-86 | sets only this stat's dirty flag |
| StatGraph.Graph.AddModifier | Runtime/Stat.cs:52-62 | appends, activates, subscribes the stat to the modifier, marks it dirty |
| StatGraph.Graph.RemoveModifier | Runtime/Stat.cs:64-69 | deactivates and unsubscribes, marks dirty, and leaves the list to the next recompute |
| StatGraph.Graph.RemoveAllModifiers | Runtime/Stat.cs:71-81 | every listed modifier deactivated and unsubscribed, the list emptied, the stat dirty |
| StatGraph.Graph.DetachAll | Runtime/Stat.cs:73-78 | the backward loop unsubscribes and deactivates each listed modifier |
| StatGraph.Graph.SetModValue | Runtime/Modifier.cs:38-42 | stores the magnitude and recomputes the modifier, failing exactly for a percent modifier without a base. Only the modifier and what derives from it change value. Every stat listing a changed active modifier is dirty. |
| RelayGraph.Subscribe | Plugins/NekoLAB/NekoStats/Stat.cs:48 | `+=` on one node's list, other lists kept |
| RelayGraph.Unsubscribe | Plugins/NekoLAB/NekoStats/Stat.cs:55 | `-=` on one node's list, other lists kept |
| RelayGraph.RewiredCount | Plugins/NekoLAB/NekoStats/BindableFloatRelay.cs:13-21 | rewiring relay `r` changes only the copies of `r`'s own handler: one fewer on the old dependency when it held one, one more on the new dependency |
| RelayGraph.TotalConcat | Plugins/NekoLAB/NekoStats/Stat.cs:83-92 | the modifier sum of a concatenation is the sum of the parts |
| RelayGraph.TotalRemoveFirst | Plugins/NekoLAB/NekoStats/Stat.cs:54 | removing a listed modifier lowers the sum by its value once; an unlisted one changes nothing |
| RelayGraph.StatValueAddModifier | Plugins/NekoLAB/NekoStats/Stat.cs:45-50 | after `AddModifier` the next recompute is higher by the modifier's value |
| RelayGraph.StatValueRemoveModifier | Plugins/NekoLAB/NekoStats/Stat.cs:52-57 | after `RemoveModifier` the next recompute is lower by it, once, if it was listed |
| RelayGraph.AddThenRemoveModifier | Plugins/NekoLAB/NekoStats/Stat.cs:45-57 | adding then removing a modifier restores the list and the invocation lists |
| RelayGraph.Graph.NewBindable | Runtime/BindableProp.cs:30-34 | a new node at `v` with no subscriber |
| RelayGraph.Graph.NewRelay | Plugins/NekoLAB/NekoStats/BindableFloatRelay.cs:29-31 | a new relay at `v`, dependency stored without subscribing |
| RelayGraph.Graph.NewStatModifier | Plugins/NekoLAB/NekoStats/BindableFloatRelay.cs:65-68 | `StatModifier(v)`: value and magnitude `v`, no dependency |
| RelayGraph.Graph.NewStatModifierPercent | Plugins/NekoLAB/NekoStats/BindableFloatRelay.cs:86-89 | the dependency is stored without subscribing or refreshing, so the value stays `v` rather than `dep * v` |
| RelayGraph.Graph.NewStat | Plugins/NekoLAB/NekoStats/Stat.cs:18-21 | `Stat(v)`: a new dependency node at `v` and a clean stat at `v` that does not subscribe to it |
| RelayGraph.Graph.NewStatOf | Plugins/NekoLAB/NekoStats/Stat.cs:23-27 | `Stat(dep)`: value `dep.Value`, no subscription |
| RelayGraph.Graph.SetValue | Runtime/BindableProp.cs:17-26 | a change stores `v` and recomputes only modifiers below the node. No stat's value moves. Every listener has heard (stats dirty, modifiers refreshed). An equal value does nothing. |
| RelayGraph.Graph.Dispatch | Runtime/BindableProp.cs:36-39 | each handler in turn keeps the notification's progress invariant |
| RelayGraph.Graph.RefreshModifier | Plugins/NekoLAB/NekoStats/BindableFloatRelay.cs:52-55 | `Value = CalculateValue()` on a modifier. It fails only for a percent modifier without a dependency, and then changes nothing. Otherwise only modifiers fed by it change value, and no stat's value moves. |
| RelayGraph.Graph.SetModValue | Plugins/NekoLAB/NekoStats/BindableFloatRelay.cs:70-74 | stores the magnitude and refreshes the value, with its notification. Only modifiers fed by it change value, and no stat's value moves. |
| RelayGraph.Graph.CalculateValue | Plugins/NekoLAB/NekoStats/Stat.cs:83-92 | the loop returns the dependency's value plus the modifiers' values, failing without a dependency |
| RelayGraph.Graph.SetDirty | Plugins/NekoLAB/NekoStats/Stat.cs:40-43 | only this stat's flag is set |
| RelayGraph.Graph.RefreshStat | Plugins/NekoLAB/NekoStats/Stat.cs:71-81 | recomputes only when dirty; when clean it just sets dirty |
| RelayGraph.Graph.Update | Plugins/NekoLAB/NekoStats/Stat.cs:31-38 | when clean nothing changes; when dirty the stat takes its recomputed value and its flag is clear; no other stat's value moves |
| RelayGraph.Graph.AddModifier | Plugins/NekoLAB/NekoStats/Stat.cs:45-50 | appends, subscribes, marks dirty, leaves the value until `Update` |
| RelayGraph.Graph.RemoveModifier | Plugins/NekoLAB/NekoStats/Stat.cs:52-57 | removes the first occurrence, unsubscribes, marks dirty |
| RelayGraph.Graph.Rewire | Plugins/NekoLAB/NekoStats/BindableFloatRelay.cs:13-21 | the old subscription is dropped before the new one is made, so a relay is subscribed to its dependency only |
| RelayGraph.Graph.SetDependency | Plugins/NekoLAB/NekoStats/BindableFloatRelay.cs:8-25 | the same dependency is a no-op. A new non-null one is rewired and the change handler runs at once: a modifier recomputes, a stat goes dirty. |
| RelayGraph.Graph.HandleDependencyChange | Plugins/NekoLAB/NekoStats/BindableFloatRelay.cs:47-50 | a modifier recomputes from its dependency; a stat only marks itself dirty |
| RelayGraph.Graph.RemoveDependency | Plugins/NekoLAB/NekoStats/BindableFloatRelay.cs:40-43 | the subscription is dropped and the dependency cleared. When there was a dependency, the setter then dereferences null, which is the `false` result. |
| Listing.InStepAdd | Plugins/NekoLAB/NekoStats/StatContainer.cs:110-114 | adding a new key to both the dictionary and the list keeps them in step |
| Listing.InStepSize | Plugins/NekoLAB/NekoStats/StatContainer.cs:110-114 | a dictionary and list in step have one entry per key |
| StatTable.Table.constructor | Runtime/StatContainer.cs:9-14 | starts empty |
| StatTable.Table.Add | Runtime/StatContainer.cs:16-19 | the key maps to the stat, replacing any previous one, and every other key is unchanged |
| StatTable.Table.Clear | Runtime/StatContainer.cs:21-24 | the dictionary is empty |
| StatContainer.Container.constructor | Plugins/NekoLAB/NekoStats/StatContainer.cs:32-33 | starts empty and in step |
| StatContainer.Container.Tick | Plugins/NekoLAB/NekoStats/StatContainer.cs:38-44 | visits the list and changes nothing |
| StatContainer.Container.Clear | Plugins/NekoLAB/NekoStats/StatContainer.cs:49-53 | both collections empty |
| StatContainer.Container.Reset | Plugins/NekoLAB/NekoStats/StatContainer.cs:55-57 | changes nothing |
| StatContainer.Container.Get | Plugins/NekoLAB/NekoStats/StatContainer.cs:64-71 | the registered stat, listed under its key, or null for an unknown key |
| StatContainer.Container.TryGet | Plugins/NekoLAB/NekoStats/StatContainer.cs:79-82 | false and null exactly for an unknown key |
| StatContainer.Container.AddStat | Plugins/NekoLAB/NekoStats/StatContainer.cs:110-114 | a duplicate key throws before anything changes; otherwise one entry is added to each collection, and the two stay the same size |
| StatContainer.Container.Create | Plugins/NekoLAB/NekoStats/StatContainer.cs:94-108 | an existing key returns its stat and changes nothing; a new key registers a fresh `Stat(0)`, ignoring `value`. The stat and its fresh base at 0 are the only new nodes, and the rest of the graph is unchanged. |
| StatRegistry.TickCalls | Plugins/NekoLAB/NekoStats/Runtime/StatContainer.cs:47-54 | the calls `Tick` makes are `Tick()` calls, at most one per wrapper |
| StatRegistry.TickedOnce | Plugins/NekoLAB/NekoStats/Runtime/StatContainer.cs:47-54 | with distinct stats, `Tick` ticks a stat once if it is listed with its flag set, and never otherwise |
| StatRegistry.ResetCalls | Plugins/NekoLAB/NekoStats/Runtime/StatContainer.cs:56-62 | one `Reset()` per key, on that key's stat, in enumeration order |
| StatRegistry.ResetOnce | Plugins/NekoLAB/NekoStats/Runtime/StatContainer.cs:56-62 | `ResetStats` resets every registered stat exactly once and no other stat, in whatever order the dictionary enumerates |
| StatRegistry.InjectiveFromList | Plugins/NekoLAB/NekoStats/Runtime/StatContainer.cs:147-151 | a list in step with the dictionary and free of repeated stats means no stat is registered under two keys |
| StatRegistry.Registry.constructor | Plugins/NekoLAB/NekoStats/Runtime/StatContainer.cs:32-33 | starts empty, in step, with no calls |
| StatRegistry.Registry.Clear | Plugins/NekoLAB/NekoStats/Runtime/StatContainer.cs:38-42 | both collections empty |
| StatRegistry.Registry.Tick | Plugins/NekoLAB/NekoStats/Runtime/StatContainer.cs:47-54 | the loop makes exactly the calls of `TickCalls`, in list order |
| StatRegistry.Registry.ResetStats | Plugins/NekoLAB/NekoStats/Runtime/StatContainer.cs:56-62 | the loop makes exactly the calls of `ResetCalls` along the enumeration |
| StatRegistry.Registry.Get | Plugins/NekoLAB/NekoStats/Runtime/StatContainer.cs:69-76 | the registered stat, or null |
| StatRegistry.Registry.TryGet | Plugins/NekoLAB/NekoStats/Runtime/StatContainer.cs:84-87 | false and null exactly for an unknown key |
| StatRegistry.Registry.AddStat | Plugins/NekoLAB/NekoStats/Runtime/StatContainer.cs:147-151 | a duplicate key throws with nothing changed; otherwise each collection gains the one entry |
| StatRegistry.Registry.RegisterStat | Plugins/NekoLAB/NekoStats/Runtime/StatContainer.cs:99-114 | a new key creates `Stat(value)` and adds one entry to each collection. An existing key returns the same stat, sets its `BaseValue` and `InitialValue`, and adds nothing. |
| StatRegistry.Registry.RegisterResourceStat | Plugins/NekoLAB/NekoStats/Runtime/StatContainer.cs:127-145 | registers as `RegisterStat` does. Then it binds the upper bound's stat, unless the key is its own bound or the bound key is unregistered. |
| UseCase.TallyConcat | Tests/UseCaseTestTypes.cs:94-104 | applying two prop lists tallies their sum |
| UseCase.TallyOther | Tests/UseCaseTestTypes.cs:205-211 | props on other stats add nothing to a stat |
| UseCase.TallyFlat | Tests/UseCaseTestTypes.cs:41-45 | flat props do not depend on the base |
| UseCase.CreatedValue | Tests/UseCaseTestTypes.cs:41-45 | `CreateModifier` starts at `prop.Value` when flat and `base * prop.Value` when percent |
| UseCase.GrownTrans | Tests/UseCaseTestTypes.cs:94-104 | applying props in two steps is applying their concatenation |
| UseCase.NotedTrans | Tests/UseCaseTestTypes.cs:155-158 | snapshot accumulation in two steps is accumulation of the concatenation |
| UseCase.NotedOne | Tests/UseCaseTestTypes.cs:155-158 | adding a prop's value to its entry is noting that one prop |
| UseCase.TalliedMore | Tests/UseCaseTestTypes.cs:112-120 | the loadout's snapshot after one more gear tallies all props so far |
| UseCase.EnumeratesAfterInit | Tests/UseCaseTestTypes.cs:195-203 | the dictionary after `Init` holds exactly the enumerated keys |
| UseCase.GrownFromConfig | Tests/UseCaseTestTypes.cs:225-235 | stats at their configured values, grown by the equipped props, read the settled values |
| UseCase.Snapshot.constructor | Tests/UseCaseTestTypes.cs:134-137 | every stat index starts at 0 |
| UseCase.Snapshot.Init | Tests/UseCaseTestTypes.cs:139-145 | every index `0..n-1` is set to 0, and every other entry is kept |
| UseCase.Snapshot.Add | Tests/UseCaseTestTypes.cs:155-158 | only entry `t` grows, by `v`; a missing key throws with nothing changed |
| UseCase.AvatarStats.constructor | Tests/UseCaseTestTypes.cs:162 | an empty dictionary over the arena |
| UseCase.AvatarStats.Configured | Tests/UseCaseTestTypes.cs:195-203 | stats built with `new Stat(cfg.X)` read `cfg.X` as base and value |
| UseCase.AvatarStats.Valued | Tests/UseCaseTestTypes.cs:175-183 | the heap-free view and the stats' own values agree |
| UseCase.AvatarStats.Register | Tests/UseCaseTestTypes.cs:197 | `_dict[t] = new Stat(v)` stores a pristine stat at `v`; every other stat is unchanged |
| UseCase.AvatarStats.Init | Tests/UseCaseTestTypes.cs:195-203 | every stat type holds a pristine stat at its configured value |
| UseCase.AvatarStats.Get | Tests/UseCaseTestTypes.cs:175-183 | the stat registered at the index, or the missing-key exception (`None`) |
| UseCase.AvatarStats.AddEquipmentModifier | Tests/UseCaseTestTypes.cs:205-211 | returns `prop.Value` (flat) or `base * prop.Value` (percent), appends one modifier to that stat only, and raises its value by the returned amount |
| UseCase.AvatarStats.FreezeStat | Tests/UseCaseTestTypes.cs:170-171 | one stat's value moves into its base and its modifiers are dropped; its value is unchanged and the other stats are untouched |
| UseCase.AvatarStats.Freeze | Tests/UseCaseTestTypes.cs:166-173 | every stat keeps its value, its base now holds that value, and it has no modifiers |
| UseCase.FoldIntoBase | Tests/UseCaseTestTypes.cs:170-171 | `stat.Base.Value = stat.Value; stat.RemoveAllModifiers()` stated on the arena's maps |
| UseCase.AttachProp | Tests/UseCaseTestTypes.cs:207-210 | `CreateModifier` plus `AddModifier`: a fresh active modifier at the prop's value appended to the stat |
| UseCase.ApplyProp | Tests/UseCaseTestTypes.cs:96-97 | one prop applied and noted; an unknown stat throws |
| UseCase.ApplyProps | Tests/UseCaseTestTypes.cs:98-103 | the loop applies and notes every prop in order |
| UseCase.ApplySlot | Tests/UseCaseTestTypes.cs:117 | one gear slot applied into the running snapshot; an empty slot throws |
| UseCase.Gear.constructor | Tests/UseCaseTestTypes.cs:81-86 | the type and main prop are stored, with no sub-props |
| UseCase.Gear.AddProp | Tests/UseCaseTestTypes.cs:88-92 | appends the sub-prop and returns the gear itself |
| UseCase.Gear.Apply | Tests/UseCaseTestTypes.cs:94-104 | the main prop, then each sub-prop, is applied to its stat and added to its snapshot entry |
| UseCase.Weapon.constructor | Tests/UseCaseTestTypes.cs:53-57 | stores the two props |
| UseCase.Weapon.Apply | Tests/UseCaseTestTypes.cs:59-63 | both props applied. When only the sub-prop's stat is missing, the main prop stays applied. When the main prop's stat is missing, every stat's value and base are as before. |
| UseCase.GearLoadout.constructor | Tests/UseCaseTestTypes.cs:109-110 | four empty slots and a zeroed snapshot |
| UseCase.GearLoadout.SetGear | Tests/UseCaseTestTypes.cs:122-125 | the gear goes into the slot of its type, and the other slots are kept |
| UseCase.GearLoadout.Apply | Tests/UseCaseTestTypes.cs:112-120 | the snapshot is reset, then every gear is applied in slot order; the snapshot holds each stat's tally |
| UseCase.AvatarData.constructor | Tests/UseCaseTestTypes.cs:216-223 | the default config, the default weapon, an empty loadout and empty stats |
| UseCase.AvatarData.Equip | Tests/UseCaseTestTypes.cs:230-232 | the weapon's and then the gears' props are applied |
| UseCase.AvatarData.Prepare | Tests/UseCaseTestTypes.cs:227-232 | after configuring and equipping, every stat reads `Settled`: its configured base plus the tally of the equipped props |
| UseCase.AvatarData.InitStats | Tests/UseCaseTestTypes.cs:225-235 | after the freeze, every stat is a bare stat at its settled value |
| StatsTest.ModifyStat | Tests/StatsTest.cs:10-25 | 100 reads 125, then 135, then 110, and the removed modifier is evicted |
| StatsTest.AddFlatValueByStatPercentage | Tests/StatsTest.cs:31-39 | health 100, shield 510 |
| StatsTest.AddStatPercentageByOtherStatPercentage | Tests/StatsTest.cs:45-55 | 0.1% of 500 is 0.5, and attack 60 becomes 90 |
| StatsTest.ModifierModValueChange | Tests/StatsTest.cs:62-70 | 65, then 70 after `SetModValue(10)` |
| StatsTest.ModifierBaseValueChange | Tests/StatsTest.cs:77-88 | 60 and 56, then 70 and 57 once every modifier agrees with the new base |
| UseCaseTest.BasicUsageMaxHP | Tests/UseCaseTest.cs:26-41 | the settled MaxHP of the test's configuration and equipment is 2300 |
| UseCaseTest.BuildGears | Tests/UseCaseTest.cs:26-31 | the four gears carry the test's props |
| UseCaseTest.BuildLoadout | Tests/UseCaseTest.cs:26-36 | the loadout holds the four gears in slot order |
| UseCaseTest.Setup | Tests/UseCaseTest.cs:8-37 | the avatar's equipped props are the weapon's then the gears' |
| UseCaseTest.BasicUsage | Tests/UseCaseTest.cs:6-42 | `InitStats` then `Get(MaxHP).Value` reads 2300 |

## Left out

- Floating point. Values are `real`. This leaves out `float` rounding (`0.1f` is not exactly 0.1), `NaN` and `-0`. The `!=` of Runtime/BindableProp.cs:20 and the `Equals` of Runtime/ReactiveProps/BindableProp.cs:18 differ on `NaN` and are both plain equality here.
- Acyclicity is a precondition. The guard against a modifier being its own base (Runtime/Modifier.cs:27-30) cannot fire, because a constructor argument is never the object under construction. In the arena a modifier's base is older than the modifier. The guard in `Stat.AddModifier` (Runtime/Stat.cs:54-57) compares a modifier's base with the stat, which can never be equal. It is modelled as never throwing.
- A cycle created by rewiring a second-generation dependency is not modelled. `SetDependency` takes a ranking of the new graph that proves the graph stays acyclic.
- StatGraph.Graph.Activate and StatGraph.Graph.Deactivate: they require that no stat lists the modifier. In the source, toggling a listed modifier directly sends no notification, so a clean stat keeps a stale cache. The model keeps every clean cache exact and leaves that path out. Toggling through `AddModifier` and `RemoveModifier` is modelled.
- StatGraph.Graph.AddModifier and StatGraph.Graph.RemoveModifier: they require that no other stat lists the modifier. A modifier shared by two stats would be deactivated for both by one removal. The use case never shares one.
- StatRegistry.Registry.AddStat: it requires a stat the registry created and has not listed yet. The source method is protected, and both register methods call it only with a fresh stat.
- UseCase.AvatarData.Equip: it requires every stat type to be registered, as `InitStats` ensures by calling `Init` first.
- RelayGraph.Graph.Update: `_isDirty = false` runs after the refresh. A dirty mark that the refresh's own broadcast raises on the same stat is therefore lost. The contract states only the final flag, and keeps the other stats' flags.
- `Stat(dependency)` and `StatModifierPercent` store `_dependency` without subscribing (Plugins/NekoLAB/NekoStats/Stat.cs:23-27, BindableFloatRelay.cs:86-89). They are modelled as written, so such a stat does not hear its dependency change.
- The `Stat` type that Plugins/NekoLAB/NekoStats/Runtime/StatContainer.cs drives (`BaseValue`, `InitialValue`, `SetUpperBound`, `Reset`, `Tick`) is not part of this model. It is an opaque reference, and the registry's calls on it form a trace.
- `Debug.LogError` in `RegisterResourceStat` is I/O and is left out.
- Dictionary enumeration order. `Freeze` and `ResetStats` walk `_dict.Values` in an order the dictionary chooses. That order is a parameter that enumerates each key once, and every result is proved for any such order.
- UseCase.AvatarData.InitStats: it requires the enumeration order of the dictionary as it will be after `Init`.
- `Snapshot.Init(Stats<E>)` (Tests/UseCaseTestTypes.cs:147-153) has no caller and is not modelled.
- `SetConfig` (Tests/UseCaseTestTypes.cs:190-193) is folded into `AvatarStats.Init`, which takes the configuration as its argument.
- `AvatarConfig`'s field initialisers are the constants of `DefaultConfig`. `Enum.GetValues` is `StatCount` indices.
- The `Vector2` and `Vector3` bindables (Runtime/ReactiveProps/BindableProp.cs:83-99) depend on Unity types and are not modelled.
- Runtime/StatModifier.cs is not part of this model: it is a record with no operations that the modelled code consumes.
- Unity serialization attributes are left out.
- A gear object set into two slots, or shared with another loadout, is not modelled. The loadout proofs read each gear's props before applying.
- An exception that interrupts a loop leaves the work done so far in place. UseCase.Gear.Apply, UseCase.GearLoadout.Apply and UseCase.AvatarData.Equip state only that such a failure happened (a missing stat or an empty slot), not the state after the partial work.
- StatGraph.Graph.Set: it requires a node that is not a modifier. Assigning a modifier's `Value` directly, through the setter it inherits from `BindableFloat` (Runtime/Modifier.cs:6, Runtime/BindableProp.cs:17-26), is left out; the modifier's next refresh would overwrite it.
- Null arguments. `new Stat(null)` (Runtime/Stat.cs:42-45), `AddModifier(null)` (Runtime/Stat.cs:51) and `new Stat(null)` in the second generation (Plugins/NekoLAB/NekoStats/Stat.cs:23-27, which reads `dependency.Value`) throw in C#. Node ids here are never null, so those exceptions cannot arise.
- UseCase.ApplyProps: on failure it states only that some prop's stat is unregistered, not which prefix was applied.
- StatsTest.ModifyStat and the other StatsTest lemmas follow the tests through the specification functions that the `Graph` methods' contracts produce. They do not call the methods, because a proof through the arena's frame conditions there exceeds the verifier's resource budget. UseCaseTest.BasicUsage does call the methods.
- StatContainer.Container.Tick and StatContainer.Container.Reset have empty bodies in the source. Their contracts say only that nothing changes, which the missing `modifies` clause enforces.
