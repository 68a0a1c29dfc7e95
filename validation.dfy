/**
 * The two business rules of Package Express (PackageValidationService):
 * a package may weigh at most MaxWeight, and its width, height and length
 * may add up to at most MaxDimensions. Each rule answers a bool and an
 * error text, which is empty when the rule passes.
 *
 * C# `double` is modelled by `real`: NaN, infinities and rounding are not part
 * of this model.
 */
module PackageValidation {

  const MaxWeight: real := 50.0
  const MaxDimensions: real := 50.0

  const TooHeavy: string := "Package too heavy to be shipped via Package Express. Have a good day."
  const TooBig: string := "Package too big to be shipped via Package Express."

  /** The bool a validator returns, together with its `out string error`. */
  datatype Verdict = Verdict(ok: bool, error: string)

  /** A verdict is well formed when its error text is empty exactly when it passes. */
  predicate WellFormed(v: Verdict) {
    v.ok <==> v.error == ""
  }

  function ValidateWeight(weight: real): (r: Verdict)
    ensures r.ok <==> weight <= MaxWeight
    ensures r.error == (if r.ok then "" else TooHeavy)
    ensures WellFormed(r)
  {
    if weight > MaxWeight then Verdict(false, TooHeavy) else Verdict(true, "")
  }

  function ValidateDimensions(width: real, height: real, length: real): (r: Verdict)
    ensures r.ok <==> width + height + length <= MaxDimensions
    ensures r.error == (if r.ok then "" else TooBig)
    ensures WellFormed(r)
  {
    if width + height + length > MaxDimensions then Verdict(false, TooBig) else Verdict(true, "")
  }

  /** The limit itself is accepted, anything above it is refused, and there is no lower bound. */
  lemma WeightBoundary(weight: real)
    ensures ValidateWeight(50.0).ok
    ensures weight > 50.0 ==> ValidateWeight(weight) == Verdict(false, TooHeavy)
    ensures weight <= 0.0 ==> ValidateWeight(weight) == Verdict(true, "")
  {
  }

  /** A lighter package passes whenever a heavier one does. */
  lemma WeightMonotone(lighter: real, heavier: real)
    requires lighter <= heavier
    ensures ValidateWeight(heavier).ok ==> ValidateWeight(lighter).ok
    ensures !ValidateWeight(lighter).ok ==> !ValidateWeight(heavier).ok
  {
  }

  /** A sum of exactly the limit passes; zero and negative measurements are never refused on their own. */
  lemma DimensionsBoundary(width: real, height: real, length: real)
    ensures ValidateDimensions(0.0, 0.0, 50.0).ok
    ensures width + height + length == 50.0 ==> ValidateDimensions(width, height, length).ok
    ensures width + height + length > 50.0 ==> ValidateDimensions(width, height, length) == Verdict(false, TooBig)
    ensures width <= 0.0 && height <= 0.0 && length <= 0.0 ==> ValidateDimensions(width, height, length).ok
  {
  }

  /** Swapping two measurements never changes the verdict. */
  lemma DimensionsSymmetric(width: real, height: real, length: real)
    ensures ValidateDimensions(width, height, length) == ValidateDimensions(height, width, length)
    ensures ValidateDimensions(width, height, length) == ValidateDimensions(length, height, width)
    ensures ValidateDimensions(width, height, length) == ValidateDimensions(width, length, height)
  {
  }

  /** Only the sum matters: two packages whose measurements add up to the same total get the same verdict. */
  lemma DimensionsDependOnSum(width: real, height: real, length: real, width2: real, height2: real, length2: real)
    requires width + height + length == width2 + height2 + length2
    ensures ValidateDimensions(width, height, length) == ValidateDimensions(width2, height2, length2)
  {
  }
}
