/**
 Terraform attribute values as the provider sees them: every attribute is
 null, not yet known (during planning), or known with a value.
 */
module TfTypes {

  /** Go's int64, the type of `sort_key` and `rank`. */
  newtype Int64 = x: int | -0x8000_0000_0000_0000 <= x < 0x8000_0000_0000_0000

  /**
   The three-way state of a Terraform value. Following the Terraform type
   system, a null value counts as known: only `Unknown` is not known.
   */
  datatype TfValue<T> = Null | Unknown | Known(value: T) {

    predicate IsNull() {
      Null?
    }

    predicate IsUnknown() {
      Unknown?
    }

    predicate IsKnown() {
      !Unknown?
    }

    /** The Go field `.Value`: the zero value of the type unless known. */
    function ValueOr(zero: T): T {
      if Known? then value else zero
    }
  }

  type TfString = TfValue<string>
  type TfBool = TfValue<bool>
  type TfInt64 = TfValue<Int64>

  function StringOf(v: TfString): string {
    v.ValueOr("")
  }

  function BoolOf(v: TfBool): bool {
    v.ValueOr(false)
  }

  function Int64Of(v: TfInt64): Int64 {
    v.ValueOr(0)
  }

  /** A diagnostic raised against one attribute of the configuration. */
  datatype Diagnostic = AttributeError(attribute: string, summary: string)
}
