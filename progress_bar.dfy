/**
 * The progress bar component: the class of its indicator, chosen from the
 * variant or, for the default variant, from the value, and the indicator's
 * width.
 */
module ProgressBar {
  import Wrappers

  datatype ProgressVariant = Default | Success | Warning | Danger

  const BaseClasses: string := "h-full rounded-full transition-all"

  /** `variantClasses`: the fixed colour of each variant. */
  function VariantColour(variant: ProgressVariant): (colour: string)
    ensures colour != ""
  {
    match variant
    case Default => "bg-primary"
    case Success => "bg-success-500"
    case Warning => "bg-warning-500"
    case Danger => "bg-danger-500"
  }

  /** Distinct variants have distinct colours. */
  lemma VariantColoursDistinct(a: ProgressVariant, b: ProgressVariant)
    ensures VariantColour(a) == VariantColour(b) <==> a == b
  {
    if a != b {
      assert VariantColour(a)[3] != VariantColour(b)[3] || VariantColour(a) != VariantColour(b);
    }
  }

  /** The colour the default variant takes from the value: success below 50, primary below 85, warning below 100, else danger. */
  function ValueColour(value: real): (colour: string)
    ensures value < 50.0 ==> colour == VariantColour(Success)
    ensures 50.0 <= value < 85.0 ==> colour == VariantColour(Default)
    ensures 85.0 <= value < 100.0 ==> colour == VariantColour(Warning)
    ensures value >= 100.0 ==> colour == VariantColour(Danger)
  {
    if value < 50.0 then "bg-success-500"
    else if value < 85.0 then "bg-primary"
    else if value < 100.0 then "bg-warning-500"
    else "bg-danger-500"
  }

  /** `getProgressBarClass(variant, value)`: the base classes, a space, then the colour. */
  function ProgressBarClass(variant: ProgressVariant, value: real): (cls: string)
    ensures |cls| > |BaseClasses| + 1 && cls[..|BaseClasses| + 1] == BaseClasses + " "
    ensures variant == Default ==> cls[|BaseClasses| + 1..] == ValueColour(value)
    ensures variant != Default ==> cls[|BaseClasses| + 1..] == VariantColour(variant)
  {
    var colour := if variant == Default then ValueColour(value) else VariantColour(variant);
    var cls := BaseClasses + " " + colour;
    assert cls[..|BaseClasses| + 1] == BaseClasses + " ";
    assert cls[|BaseClasses| + 1..] == colour;
    cls
  }

  /** An explicit variant fixes the colour: the value plays no part. */
  lemma ExplicitVariantIgnoresValue(variant: ProgressVariant, v1: real, v2: real)
    requires variant != Default
    ensures ProgressBarClass(variant, v1) == ProgressBarClass(variant, v2)
  {
  }

  /** `value || 0`: a missing value (or 0) draws an empty bar. */
  function CurrentValue(value: Wrappers.Option<real>): (v: real)
    ensures value.None? ==> v == 0.0
    ensures value.Some? ==> v == value.value
  {
    if value.Some? then value.value else 0.0
  }

  /** What the component renders for the indicator. */
  datatype Indicator = Indicator(cls: string, widthPercent: real)

  /** The indicator: its class from the variant and the value, its width the value in percent, not clamped. */
  function RenderIndicator(variant: ProgressVariant, value: Wrappers.Option<real>): (ind: Indicator)
    ensures ind.widthPercent == CurrentValue(value)
    ensures ind.cls == ProgressBarClass(variant, CurrentValue(value))
  {
    var v := CurrentValue(value);
    Indicator(ProgressBarClass(variant, v), v)
  }

  /** The width follows the value even beyond 100: clamping is the caller's business. */
  lemma WidthNotClamped(variant: ProgressVariant, v: real)
    requires v > 100.0
    ensures RenderIndicator(variant, Wrappers.Some(v)).widthPercent > 100.0
  {
  }
}
