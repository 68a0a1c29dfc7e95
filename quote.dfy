/**
 * ShippingQuoteService: the price of a package is the product of its three
 * dimensions and its weight, divided by 100. Nothing is rounded, clamped or
 * validated here.
 */
module ShippingQuote {

  function CalculateQuote(weight: real, width: real, height: real, length: real): (r: real)
    ensures 100.0 * r == width * height * length * weight
  {
    (width * height * length * weight) / 100.0
  }

  /** The quote is zero as soon as one factor is zero, and only then. */
  lemma QuoteZero(weight: real, width: real, height: real, length: real)
    ensures CalculateQuote(weight, width, height, length) == 0.0
        <==> (weight == 0.0 || width == 0.0 || height == 0.0 || length == 0.0)
  {
  }

  /** Non-negative measurements give a non-negative quote. */
  lemma QuoteNonNegative(weight: real, width: real, height: real, length: real)
    requires weight >= 0.0 && width >= 0.0 && height >= 0.0 && length >= 0.0
    ensures CalculateQuote(weight, width, height, length) >= 0.0
  {
  }

  /** No sign check: one negative measurement makes the quote negative. */
  lemma QuoteCanBeNegative()
    ensures CalculateQuote(-1.0, 10.0, 10.0, 10.0) == -10.0
  {
  }

  /** The quote is linear in the weight: doubling the weight doubles the price. */
  lemma QuoteLinearInWeight(k: real, weight: real, width: real, height: real, length: real)
    ensures CalculateQuote(k * weight, width, height, length) == k * CalculateQuote(weight, width, height, length)
  {
  }
}
