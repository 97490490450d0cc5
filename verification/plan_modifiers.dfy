/**
 `DefaultAttributePlanModifier.Modify` (internal/provider/plan_modifiers.go):
 replace the planned value of an attribute with a static default when the
 configuration leaves it unset.
 */
module PlanModifiers {
  import opened Wrappers
  import opened TfTypes

  /**
   An attribute value handed to the modifier. Converting it to a Terraform
   value may fail; the value that comes back alongside the error, `readsAs`,
   is whatever the attribute type returns on that path and is left open.
   */
  datatype AttrValue<T> = Convertible(value: TfValue<T>) | Unconvertible(readsAs: TfValue<T>)

  /** `ToTerraformValue`: the converted value and whether conversion failed. */
  function ToTerraformValue<T>(a: AttrValue<T>): (TfValue<T>, bool) {
    match a
    case Convertible(v) => (v, false)
    case Unconvertible(v) => (v, true)
  }

  /** A value whose conversion reads as null. */
  predicate Unset<T>(a: AttrValue<T>) {
    ToTerraformValue(a).0.IsNull()
  }

  /** A value whose conversion reads as known and not null. */
  predicate Settled<T>(a: AttrValue<T>) {
    ToTerraformValue(a).0.IsKnown() && !ToTerraformValue(a).0.IsNull()
  }

  /** The plan after the modifier ran and the number of conversion errors it reported. */
  datatype Modified<T> = Modified(plan: Option<AttrValue<T>>, errors: nat)

  function ErrorCount(failed: bool): nat {
    if failed then 1 else 0
  }

  /**
   The rule as the source writes it: keep the plan when its value is not null
   OR is known. A null value is known, so this keeps every plan.
   */
  function ModifyAsWritten<T>(default: AttrValue<T>, config: Option<AttrValue<T>>, plan: Option<AttrValue<T>>): (r: Modified<T>)
    ensures r.plan == plan
    ensures config.Some? && plan.Some? && config.value.Unconvertible? ==> r.errors >= 1
    ensures r.errors <= 2
  {
    if plan.None? || config.None? then Modified(plan, 0)
    else
      var (cv, e1) := ToTerraformValue(config.value);
      if !cv.IsNull() then Modified(plan, ErrorCount(e1))
      else
        var (pv, e2) := ToTerraformValue(plan.value);
        var errors := ErrorCount(e1) + ErrorCount(e2);
        Modified(if !pv.IsNull() || pv.IsKnown() then plan else Some(default), errors)
  }

  /** The input that shows it: a null configuration and an unknown plan keep the unknown plan. */
  lemma AsWrittenCounterexample(default: AttrValue<bool>)
    requires default != Convertible(Unknown)
    ensures ModifyAsWritten(default, Some(Convertible(Null)), Some(Convertible(Unknown))).plan == Some(Convertible(Unknown))
    ensures Modify(default, Some(Convertible(Null)), Some(Convertible(Unknown))).plan == Some(default)
  {
  }

  /**
   The rule the comment beside it describes: keep the plan only when its value
   is known and not null; otherwise, for an unset configuration, use the default.
   A failed conversion is reported and evaluation goes on.
   */
  function Modify<T>(default: AttrValue<T>, config: Option<AttrValue<T>>, plan: Option<AttrValue<T>>): (r: Modified<T>)
    ensures plan.None? || config.None? ==> r == Modified(plan, 0)
    ensures plan.Some? && config.Some? && !Unset(config.value) ==> r.plan == plan
    ensures plan.Some? && config.Some? && Settled(plan.value) ==> r.plan == plan
    ensures plan.Some? && config.Some? && Unset(config.value) && !Settled(plan.value) ==> r.plan == Some(default)
    ensures config.Some? && plan.Some? && config.value.Unconvertible? ==> r.errors >= 1
    ensures r.errors <= 2
  {
    if plan.None? || config.None? then Modified(plan, 0)
    else
      var (cv, e1) := ToTerraformValue(config.value);
      if !cv.IsNull() then Modified(plan, ErrorCount(e1))
      else
        var (pv, e2) := ToTerraformValue(plan.value);
        if !pv.IsNull() && pv.IsKnown() then Modified(plan, ErrorCount(e1) + ErrorCount(e2))
        else Modified(Some(default), ErrorCount(e1) + ErrorCount(e2))
  }

  /**
   What an unconvertible configuration does depends on the value its failed
   conversion reads as: read as null it lets the default in over an unknown
   plan, read as unknown it keeps the plan. Either way the error is reported.
   */
  lemma {:induction false} FailedConversionReadings(default: AttrValue<bool>, plan: AttrValue<bool>)
    requires plan == Convertible(Unknown)
    ensures Modify(default, Some(Unconvertible(Null)), Some(plan)) == Modified(Some(default), 1)
    ensures Modify(default, Some(Unconvertible(Unknown)), Some(plan)) == Modified(Some(plan), 1)
  {
  }
}
