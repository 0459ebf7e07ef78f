/** The two combination rules shared by both generations of modifiers:
    `Modifier`/`StatModifier` add their magnitude to the base,
    `PercentModifier`/`StatModifierPercent` multiply the base by it. */
module Rules {
  import opened Lists

  datatype Rule = Additive | Percent

  /** `CalculateValue` of a modifier whose base (dependency) reads `base`, or
      has none. The additive rule falls back to the bare magnitude without a
      base; the percent rule dereferences the base unconditionally, so with
      none it throws, which is `None` here. */
  function Calculate(rule: Rule, base: Option<real>, magnitude: real): (r: Option<real>)
    ensures r.None? <==> rule == Percent && base.None?
  {
    match (rule, base)
    case (Additive, None) => Some(magnitude)
    case (Additive, Some(b)) => Some(b + magnitude)
    case (Percent, None) => None
    case (Percent, Some(b)) => Some(b * magnitude)
  }
}
