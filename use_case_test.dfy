/** `UseCaseTest.TestBasicUsage` (Tests/UseCaseTest.cs): an avatar with a
    configuration, a weapon and four gears is initialised, and its MaxHP
    reads 2300. */
module UseCaseTest {
  import opened Lists
  import opened StatGraph
  import opened UseCase

  /** The configuration the test sets: the field initialisers' values. */
  const TestConfig := Config(2000.0, 1000.0, 500.0, 100.0, 0.1, 0.5)

  /** The weapon's props: Attack +100, CritRate +0.31. */
  const WeaponProps := [Prop(Attack, 100.0, false), Prop(CritRate, 0.31, false)]

  /** The gears' props in slot order: the head's MaxHP +100 and +10%, the
      hand's Attack +100 and +17%, the body's CritDamage +0.62, the feet's
      Speed +100. */
  const HeadProps := [Prop(MaxHP, 100.0, false), Prop(MaxHP, 0.1, true)]
  const HandProps := [Prop(Attack, 100.0, false), Prop(Attack, 0.17, true)]
  const BodyProps := [Prop(CritDamage, 0.62, false)]
  const FeetProps := [Prop(Speed, 100.0, false)]

  /** MaxHP settles at 2000 + 100 + 10% of 2000: only the head's props are
      on MaxHP, and its percent prop is taken of the configured base. */
  lemma BasicUsageMaxHP()
    ensures Settled(TestConfig, WeaponProps + (HeadProps + HandProps + BodyProps + FeetProps), MaxHP) == 2300.0
  {
    var gearProps := HeadProps + HandProps + BodyProps + FeetProps;
    TallyOther(WeaponProps, MaxHP, 2000.0);
    TallyConcat(WeaponProps, gearProps, MaxHP, 2000.0);
    TallyConcat(HeadProps + HandProps + BodyProps, FeetProps, MaxHP, 2000.0);
    TallyConcat(HeadProps + HandProps, BodyProps, MaxHP, 2000.0);
    TallyConcat(HeadProps, HandProps, MaxHP, 2000.0);
    TallyOther(HandProps, MaxHP, 2000.0);
    TallyOther(BodyProps, MaxHP, 2000.0);
    TallyOther(FeetProps, MaxHP, 2000.0);
    assert HeadProps[..1] == [Prop(MaxHP, 100.0, false)];
    assert HeadProps[..1][..0] == [];
    assert Tally(HeadProps, MaxHP, 2000.0) == 300.0;
  }

  /** Lines 26-31 of the test: the four gears, with their sub-props. */
  method BuildGears() returns (head: Gear, hand: Gear, body: Gear, feet: Gear)
    ensures fresh(head) && fresh(hand) && fresh(body) && fresh(feet)
    ensures head.gearType == Head && hand.gearType == Hand && body.gearType == Body && feet.gearType == Feet
    ensures head.Props() == HeadProps && hand.Props() == HandProps
    ensures body.Props() == BodyProps && feet.Props() == FeetProps
  {
    head := new Gear(Head, Prop(MaxHP, 100.0, false));
    var self := head.AddProp(Prop(MaxHP, 0.1, true));
    hand := new Gear(Hand, Prop(Attack, 100.0, false));
    self := hand.AddProp(Prop(Attack, 0.17, true));
    body := new Gear(Body, Prop(CritDamage, 0.62, false));
    feet := new Gear(Feet, Prop(Speed, 100.0, false));
  }

  /** Four filled slots hold the props of their gears in slot order. */
  lemma PropsOfFour(gs: seq<Gear?>, a: Gear, b: Gear, c: Gear, d: Gear)
    requires gs == [a, b, c, d]
    ensures PropsOf(gs) == a.Props() + b.Props() + c.Props() + d.Props()
  {
    assert [a][..0] == [];
    assert [a, b][..1] == [a];
    assert [a, b, c][..2] == [a, b];
    assert [a, b, c, d][..3] == [a, b, c];
    assert PropsOf([a]) == [] + a.Props() == a.Props();
    assert PropsOf([a, b]) == a.Props() + b.Props();
    assert PropsOf([a, b, c]) == a.Props() + b.Props() + c.Props();
  }

  /** Lines 26-36 of the test: the four gears built and set into a new
      loadout. */
  method BuildLoadout() returns (gearLoadout: GearLoadout)
    ensures fresh(gearLoadout) && fresh(gearLoadout.gears) && fresh(gearLoadout.snapshot) && gearLoadout.Valid()
    ensures null !in gearLoadout.gears[..]
    ensures PropsOf(gearLoadout.gears[..]) == HeadProps + HandProps + BodyProps + FeetProps
  {
    var head, hand, body, feet := BuildGears();
    gearLoadout := new GearLoadout();
    gearLoadout.SetGear(head);
    gearLoadout.SetGear(hand);
    gearLoadout.SetGear(body);
    gearLoadout.SetGear(feet);
    assert gearLoadout.gears[..] == [head, hand, body, feet];
    PropsOfFour(gearLoadout.gears[..], head, hand, body, feet);
  }

  /** Lines 8-37 of the test: a new avatar given the test's configuration,
      weapon and loadout. */
  method Setup(g: Graph) returns (avatar: AvatarData)
    requires g.Valid()
    ensures fresh(avatar) && fresh(avatar.stats) && fresh(avatar.loadout.snapshot)
    ensures avatar.stats.graph == g && avatar.stats.Valid() && avatar.stats.dict == map[] && avatar.loadout.Valid()
    ensures avatar.cfg == TestConfig && null !in avatar.loadout.gears[..]
    ensures avatar.Equipped() == WeaponProps + (HeadProps + HandProps + BodyProps + FeetProps)
  {
    avatar := new AvatarData(g);
    avatar.cfg := TestConfig;
    avatar.weapon := new Weapon(Prop(Attack, 100.0, false), Prop(CritRate, 0.31, false));
    avatar.loadout := BuildLoadout();
  }

  /** `TestBasicUsage`: the avatar initialised, its dictionary enumerated
      in insertion order; its MaxHP then reads 2300. */
  method BasicUsage(g: Graph) returns (maxHP: real)
    requires g.Valid()
    modifies g
    ensures maxHP == 2300.0
  {
    var avatar := Setup(g);
    var ok := avatar.InitStats([MaxHP, Attack, Defense, Speed, CritRate, CritDamage]);
    BasicUsageMaxHP();
    var s := avatar.stats.Get(MaxHP);
    if s.Some? {
      maxHP := g.Value(s.value);
    }
  }
}
