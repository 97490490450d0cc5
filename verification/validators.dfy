/**
 The attribute validators of the provider (internal/provider/validators.go):
 a string length range, and membership of the two custom field enumerations.
 */
module Validators {
  import opened TfTypes
  import CustomFields

  /** The number of bytes UTF-8 uses for one Unicode scalar value. */
  function Utf8Width(ch: char): (n: nat)
    ensures 1 <= n <= 4
  {
    if ch as int < 0x80 then 1
    else if ch as int < 0x800 then 2
    else if ch as int < 0x1_0000 then 3
    else 4
  }

  /** Go's `len` of a string: its length in UTF-8 bytes. */
  function Utf8Len(s: string): nat {
    if s == [] then 0 else Utf8Width(s[0]) + Utf8Len(s[1..])
  }

  /** Every character takes between one and four bytes. */
  lemma {:induction false} Utf8LenBounds(s: string)
    ensures |s| <= Utf8Len(s) <= 4 * |s|
  {
    if s != [] {
      Utf8LenBounds(s[1..]);
    }
  }

  /** A string of characters of one width `w` takes `w` bytes per character. */
  lemma {:induction false} Utf8LenUniform(s: string, w: nat)
    requires forall i :: 0 <= i < |s| ==> Utf8Width(s[i]) == w
    ensures Utf8Len(s) == w * |s|
  {
    if s != [] {
      assert Utf8Width(s[0]) == w;
      assert forall i :: 0 <= i < |s[1..]| ==> s[1..][i] == s[i + 1];
      Utf8LenUniform(s[1..], w);
    }
  }

  /** `stringLengthBetweenValidator`: a closed range of byte lengths. */
  datatype LengthBetween = LengthBetween(min: int, max: int)

  function StringLengthBetween(minLength: int, maxLength: int): (v: LengthBetween)
    ensures v.min == minLength && v.max == maxLength
  {
    LengthBetween(minLength, maxLength)
  }

  const InvalidLength := "Invalid String Length"
  const InvalidFieldType := "Invalid field type"
  const InvalidFieldRequirement := "Invalid field requirement"

  /** A null or unknown value is never judged; a known one is refused outside the range. */
  function ValidateLength(v: LengthBetween, attribute: string, config: TfString): (diags: seq<Diagnostic>)
    ensures !config.Known? ==> diags == []
    ensures config.Known? ==> (diags == [] <==> v.min <= Utf8Len(config.value) <= v.max)
    ensures diags == [] || diags == [AttributeError(attribute, InvalidLength)]
  {
    if config.IsUnknown() || config.IsNull() then []
    else
      var n := Utf8Len(config.value);
      if n < v.min || n > v.max then [AttributeError(attribute, InvalidLength)] else []
  }

  /** A known value is refused exactly when the field type parser refuses it. */
  function ValidateFieldType(attribute: string, config: TfString): (diags: seq<Diagnostic>)
    ensures !config.Known? ==> diags == []
    ensures config.Known? ==> (diags == [] <==> CustomFields.ParseFieldType(config.value).Success?)
    ensures diags == [] || diags == [AttributeError(attribute, InvalidFieldType)]
  {
    if config.IsUnknown() || config.IsNull() then []
    else
      match CustomFields.ParseFieldType(config.value)
      case Failure(_) => [AttributeError(attribute, InvalidFieldType)]
      case Success(_) => []
  }

  /** A known value is refused exactly when the requirement parser refuses it. */
  function ValidateFieldRequirement(attribute: string, config: TfString): (diags: seq<Diagnostic>)
    ensures !config.Known? ==> diags == []
    ensures config.Known? ==> (diags == [] <==> CustomFields.ParseFieldRequirement(config.value).Success?)
    ensures diags == [] || diags == [AttributeError(attribute, InvalidFieldRequirement)]
  {
    if config.IsUnknown() || config.IsNull() then []
    else
      match CustomFields.ParseFieldRequirement(config.value)
      case Failure(_) => [AttributeError(attribute, InvalidFieldRequirement)]
      case Success(_) => []
  }

  /** The accept sets of the two enumeration validators are exactly the enumerations. */
  lemma EnumValidatorsAcceptSets(attribute: string, s: string)
    ensures ValidateFieldType(attribute, Known(s)) == [] <==> s in CustomFields.FieldTypes
    ensures ValidateFieldRequirement(attribute, Known(s)) == [] <==> s in CustomFields.FieldRequirements
  {
  }

  /**
   Lengths are counted in bytes: a string of at most `max / 4` characters always
   fits a range starting at zero, and one of more than `max` characters never does.
   */
  lemma {:induction false} LengthByCharacters(v: LengthBetween, attribute: string, s: string)
    requires v.min <= 0
    ensures 4 * |s| <= v.max ==> ValidateLength(v, attribute, Known(s)) == []
    ensures |s| > v.max ==> ValidateLength(v, attribute, Known(s)) != []
  {
    Utf8LenBounds(s);
  }
}
