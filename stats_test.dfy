/** The numbers of Tests/StatsTest.cs on the first-generation arena. Each
    lemma follows one test through the maps the `Graph` methods' contracts
    produce: `NewStatWithValue` and `NewModifier` add nodes holding
    `InitialValue`, `AddModifier` appends and activates, `RemoveModifier`
    deactivates, `Value` reads `AggregateIn` and evicts the inactive
    entries, and a store to a base leaves every modifier `Consistent`. */
module StatsTest {
  import opened Lists
  import opened Rules
  import opened StatGraph

  /** `TestModifyStat`: the stat's base is node 0 at 100; node 1 is
      `Modifier(25)` and node 2 `PercentModifier(0.1, base)`. */
  const ModifyValues: map<NodeId, real> :=
    map[0 := 100.0, 1 := InitialValue(map[0 := 100.0], 25.0, None, Additive),
        2 := InitialValue(map[0 := 100.0], 0.1, Some(0), Percent)]
  const ModifyMods: map<NodeId, Modifier> :=
    map[1 := Modifier(25.0, None, Additive, false), 2 := Modifier(0.1, Some(0), Percent, false)]

  /** Adding the flat modifier reads 125, adding the percent one 135, and
      removing the flat one 110; the recalculation after the removal drops
      the flat modifier from the list. */
  lemma ModifyStat()
    ensures var mods1 := SetActive(ModifyMods, 1, true);
            var mods2 := SetActive(mods1, 2, true);
            var mods3 := SetActive(mods2, 1, false);
            && AggregateIn(StatNode(0, [1]), mods1, ModifyValues) == 125.0
            && ActiveOnly([1], mods1) == [1]
            && AggregateIn(StatNode(0, [1, 2]), mods2, ModifyValues) == 135.0
            && ActiveOnly([1, 2], mods2) == [1, 2]
            && AggregateIn(StatNode(0, [1, 2]), mods3, ModifyValues) == 110.0
            && ActiveOnly([1, 2], mods3) == [2]
  {
    var mods1 := SetActive(ModifyMods, 1, true);
    var mods2 := SetActive(mods1, 2, true);
    var mods3 := SetActive(mods2, 1, false);
    assert ModifyValues[1] == 25.0 && ModifyValues[2] == 10.0;
    assert [1, 2][1..] == [2] && [2][1..] == [] && [1][1..] == [];
    assert IsActive(1, mods1) && IsActive(1, mods2) && IsActive(2, mods2);
    assert !IsActive(1, mods3) && IsActive(2, mods3);
    assert ActiveOnly([2], mods3) == (if IsActive(2, mods3) then [2] else []) + ActiveOnly([], mods3);
    assert ActiveOnly([2], mods2) == [2] && ActiveOnly([2], mods3) == [2];
    assert ActiveSum([], mods1, ModifyValues) == 0.0;
    assert ActiveSum([1], mods1, ModifyValues) == 25.0;
    assert ActiveSum([2], mods2, ModifyValues) == 10.0;
    assert ActiveSum([1, 2], mods2, ModifyValues) == 35.0;
    assert ActiveSum([2], mods3, ModifyValues) == 10.0;
    assert ActiveSum([1, 2], mods3, ModifyValues) == 10.0;
  }

  /** `TestAddFlatValueByStatPercentage`: health's base is node 0 at 100,
      shield's node 1 at 500, and node 2 is 10% of node 0 on the shield. */
  lemma AddFlatValueByStatPercentage()
    ensures var values := map[0 := 100.0, 1 := 500.0, 2 := InitialValue(map[0 := 100.0, 1 := 500.0], 0.1, Some(0), Percent)];
            var mods := SetActive(map[2 := Modifier(0.1, Some(0), Percent, false)], 2, true);
            && AggregateIn(StatNode(0, []), mods, values) == 100.0
            && AggregateIn(StatNode(1, [2]), mods, values) == 510.0
  {
    assert [2][1..] == [];
  }

  /** `TestAddStatPercentageByOtherStatPercentage`: node 2, 0.1% of the
      shield base of 500, reads 0.5; node 3, a percent modifier of that
      magnitude on the attack base of 60, lifts the attack to 90. */
  lemma AddStatPercentageByOtherStatPercentage()
    ensures var values0 := map[0 := 500.0, 1 := 60.0];
            var percent := InitialValue(values0, 0.001, Some(0), Percent);
            var values := values0[2 := percent][3 := InitialValue(values0[2 := percent], percent, Some(1), Percent)];
            var mods := SetActive(map[2 := Modifier(0.001, Some(0), Percent, false),
                                      3 := Modifier(percent, Some(1), Percent, false)], 3, true);
            && percent == 0.5
            && AggregateIn(StatNode(0, []), mods, values) == 500.0
            && AggregateIn(StatNode(1, [3]), mods, values) == 90.0
  {
    assert [3][1..] == [];
  }

  /** `TestModifierModValueChange`: the attack's base is node 0 at 60 and
      node 1 is `Modifier(5)`; after `SetModValue(10)` the modifier reads
      10 and the attack 70. */
  lemma ModifierModValueChange()
    ensures var values := map[0 := 60.0, 1 := InitialValue(map[0 := 60.0], 5.0, None, Additive)];
            var mods := SetActive(map[1 := Modifier(5.0, None, Additive, false)], 1, true);
            var mods' := Retuned(mods, 1, 10.0);
            var c := Calculate(mods'[1].rule, BaseValue(mods'[1], values), 10.0);
            && AggregateIn(StatNode(0, [1]), mods, values) == 65.0
            && c == Some(10.0)
            && AggregateIn(StatNode(0, [1]), mods', values[1 := c.value]) == 70.0
  {
    var mods := SetActive(map[1 := Modifier(5.0, None, Additive, false)], 1, true);
    var mods' := Retuned(mods, 1, 10.0);
    assert [1][1..] == [];
    assert mods'[1] == Modifier(10.0, None, Additive, true);
    assert IsActive(1, mods) && IsActive(1, mods');
    var values := map[0 := 60.0, 1 := 5.0];
    assert ActiveSum([1], mods, values) == 5.0;
    assert ActiveSum([1], mods', values[1 := 10.0]) == 10.0;
  }

  /** `TestModifierBaseValueChange`: attack's base is node 0 at 60,
      defence's node 1 at 50, and node 2 is 10% of node 0 on the defence.
      Once node 0 is set to 70, the only values that agree with every
      modifier's calculation give attack 70 and defence 57. */
  lemma ModifierBaseValueChange(values': map<NodeId, real>)
    requires values'.Keys == {0, 1, 2} && values'[0] == 70.0 && values'[1] == 50.0
    requires Consistent(Modifier(0.1, Some(0), Percent, true), values'[2], values')
    ensures var values := map[0 := 60.0, 1 := 50.0, 2 := InitialValue(map[0 := 60.0, 1 := 50.0], 0.1, Some(0), Percent)];
            var mods := SetActive(map[2 := Modifier(0.1, Some(0), Percent, false)], 2, true);
            && AggregateIn(StatNode(0, []), mods, values) == 60.0
            && AggregateIn(StatNode(1, [2]), mods, values) == 56.0
            && AggregateIn(StatNode(0, []), mods, values') == 70.0
            && AggregateIn(StatNode(1, [2]), mods, values') == 57.0
  {
    assert [2][1..] == [];
  }
}
