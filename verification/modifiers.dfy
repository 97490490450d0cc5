/**
 The default-value plan modifiers for bool, int64 and string attributes
 (internal/provider/modifiers.go): a null configuration value makes the
 planned value the default.
 */
module Modifiers {
  import opened Wrappers
  import opened TfTypes
  import PlanModifiers

  /** `boolDefaultValueModifier`, `int64DefaultValueModifier`, `stringDefaultValueModifier`. */
  datatype DefaultValue<T> = DefaultValue(value: T)

  /**
   The rule the three modifiers share: a null configuration makes the plan a
   known, non-null value holding the default; any other configuration,
   unknown included, leaves the plan as it was.
   */
  function DefaultIfNull<T>(m: DefaultValue<T>, config: TfValue<T>, plan: TfValue<T>): (r: TfValue<T>)
    ensures config.IsNull() ==> r.IsKnown() && !r.IsNull() && r.value == m.value
    ensures !config.IsNull() ==> r == plan
  {
    if config.IsNull() then Known(m.value) else plan
  }

  function PlanModifyBool(m: DefaultValue<bool>, config: TfBool, plan: TfBool): (r: TfBool)
    ensures config.IsNull() ==> r.IsKnown() && !r.IsNull() && BoolOf(r) == m.value
    ensures !config.IsNull() ==> r == plan
  {
    DefaultIfNull(m, config, plan)
  }

  function PlanModifyInt64(m: DefaultValue<Int64>, config: TfInt64, plan: TfInt64): (r: TfInt64)
    ensures config.IsNull() ==> r.IsKnown() && !r.IsNull() && Int64Of(r) == m.value
    ensures !config.IsNull() ==> r == plan
  {
    DefaultIfNull(m, config, plan)
  }

  function PlanModifyString(m: DefaultValue<string>, config: TfString, plan: TfString): (r: TfString)
    ensures config.IsNull() ==> r.IsKnown() && !r.IsNull() && StringOf(r) == m.value
    ensures !config.IsNull() ==> r == plan
  {
    DefaultIfNull(m, config, plan)
  }

  /** Applying a modifier to its own output changes nothing. */
  lemma DefaultIdempotent<T>(m: DefaultValue<T>, config: TfValue<T>, plan: TfValue<T>)
    ensures DefaultIfNull(m, config, DefaultIfNull(m, config, plan)) == DefaultIfNull(m, config, plan)
  {
  }

  /**
   The typed modifiers against the attribute modifier (with its guard as the
   comment describes it): both keep the plan when a value is configured and
   both use the default when nothing is configured and the plan is null or
   unknown, but only the typed modifiers overwrite a plan that already holds
   a different known value.
   */
  lemma TypedAgainstAttributeModifier<T>(m: DefaultValue<T>, config: TfValue<T>, plan: TfValue<T>)
    ensures !config.Null? ==>
      PlanModifiers.Modify(PlanModifiers.Convertible(Known(m.value)), Some(PlanModifiers.Convertible(config)), Some(PlanModifiers.Convertible(plan))).plan
      == Some(PlanModifiers.Convertible(DefaultIfNull(m, config, plan)))
    ensures config.Null? && !plan.Known? ==>
      PlanModifiers.Modify(PlanModifiers.Convertible(Known(m.value)), Some(PlanModifiers.Convertible(config)), Some(PlanModifiers.Convertible(plan))).plan
      == Some(PlanModifiers.Convertible(DefaultIfNull(m, config, plan)))
    ensures config.Null? && plan.Known? && plan.value != m.value ==>
      PlanModifiers.Modify(PlanModifiers.Convertible(Known(m.value)), Some(PlanModifiers.Convertible(config)), Some(PlanModifiers.Convertible(plan))).plan
      != Some(PlanModifiers.Convertible(DefaultIfNull(m, config, plan)))
  {
  }
}
