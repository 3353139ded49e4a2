/** The tax and shipping rule both checkout handlers apply to a subtotal.
    Amounts are exact rupee values. */
module Pricing {

  /** 18% tax on the subtotal. */
  const TaxRate: real := 0.18
  /** Shipping is free strictly above this subtotal. */
  const FreeShippingAbove: real := 999.0
  /** Flat shipping fee at or below the threshold. */
  const FlatShipping: real := 50.0

  datatype Quote = Quote(subtotal: real, tax: real, shipping: real, total: real)

  /** `tax = subtotal * 0.18`, `shipping = subtotal > 999 ? 0 : 50`,
      `total = subtotal + tax + shipping`. */
  function PriceQuote(subtotal: real): (q: Quote)
    ensures q.subtotal == subtotal
    ensures 100.0 * q.tax == 18.0 * subtotal
    ensures q.shipping == 0.0 || q.shipping == 50.0
    ensures q.shipping == 0.0 <==> subtotal > 999.0
    ensures q.total == q.subtotal + q.tax + q.shipping
  {
    var tax := subtotal * TaxRate;
    var shipping := if subtotal > FreeShippingAbove then 0.0 else FlatShipping;
    Quote(subtotal, tax, shipping, subtotal + tax + shipping)
  }

  /** Grand total as one closed formula: 1.18 times the subtotal, plus 50
      unless the subtotal exceeds 999. */
  lemma {:induction false} GrandTotalFormula(subtotal: real)
    ensures PriceQuote(subtotal).total
         == subtotal * 118.0 / 100.0 + (if subtotal > 999.0 then 0.0 else 50.0)
  {
  }

  /** At exactly 999 shipping is still charged; a paisa more and it is free. */
  lemma {:induction false} ShippingBoundary()
    ensures PriceQuote(999.0).shipping == 50.0
    ensures PriceQuote(999.01).shipping == 0.0
  {
  }

  /** Crossing the threshold lowers the grand total: the quote is not
      monotone in the subtotal. */
  lemma {:induction false} ThresholdDrop()
    ensures PriceQuote(999.0).total > PriceQuote(999.01).total
  {
  }
}
