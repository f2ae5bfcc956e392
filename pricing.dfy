/**
  The order summary of the cart page and the checkout page: shipping is free
  strictly above $50 and $9.99 otherwise, tax is 8 % of the subtotal, and the
  cart page suggests how much more would earn free shipping.
 */
module Pricing {
  import opened Common
  import opened Products
  import opened CartStore
  import opened CartLineView

  const FreeShippingThreshold: real := 50.0
  const ShippingFee: real := 9.99
  const TaxRate: real := 0.08

  function Shipping(subtotal: real): (r: real)
    ensures r == 0.0 <==> subtotal > FreeShippingThreshold
    ensures r == 0.0 || r == ShippingFee
  {
    if subtotal > FreeShippingThreshold then 0.0 else ShippingFee
  }

  function Tax(subtotal: real): (r: real)
    ensures subtotal >= 0.0 ==> 0.0 <= r <= subtotal
  {
    subtotal * TaxRate
  }

  function GrandTotal(subtotal: real): (r: real)
    ensures subtotal >= 0.0 ==> r >= subtotal
    ensures r == subtotal * 1.08 + Shipping(subtotal)
  {
    subtotal + Shipping(subtotal) + Tax(subtotal)
  }

  /** The hint shows while shipping is charged and the subtotal is below $50. */
  predicate ShowFreeShippingHint(subtotal: real) {
    Shipping(subtotal) > 0.0 && subtotal < FreeShippingThreshold
  }

  /** What the hint asks the customer to add. */
  function HintAmount(subtotal: real): (r: real)
    ensures ShowFreeShippingHint(subtotal) ==> r > 0.0
    ensures ShowFreeShippingHint(subtotal) ==> subtotal + r == FreeShippingThreshold
  {
    FreeShippingThreshold - subtotal
  }

  /** The hint shows exactly below $50; a subtotal of exactly $50 gets neither
      free shipping nor the hint. */
  lemma HintBelowThreshold(subtotal: real)
    ensures ShowFreeShippingHint(subtotal) <==> subtotal < FreeShippingThreshold
    ensures subtotal == FreeShippingThreshold ==> Shipping(subtotal) == ShippingFee && !ShowFreeShippingHint(subtotal)
  {
  }

  /** Adding what the hint asks for is not enough: it reaches exactly $50,
      which still pays shipping. */
  lemma HintAmountNotEnough(subtotal: real)
    requires ShowFreeShippingHint(subtotal)
    ensures Shipping(subtotal + HintAmount(subtotal)) == ShippingFee
  {
  }

  /** Crossing the threshold can lower the total: of two carts on either side
      of $50, the dearer one costs less in total exactly when the gap, with tax,
      is below the shipping fee. */
  lemma TotalDropsAcrossThreshold(a: real, b: real)
    requires a <= FreeShippingThreshold < b
    ensures GrandTotal(a) > GrandTotal(b) <==> (b - a) * 1.08 < ShippingFee
    ensures GrandTotal(49.99) > GrandTotal(50.01)
  {
    assert GrandTotal(a) == a * 1.08 + ShippingFee;
    assert GrandTotal(b) == b * 1.08;
  }

  /** What the cart page renders. */
  datatype CartView =
    | EmptyState
    | Summary(lines: seq<ResolvedLine>, totalItems: int, subtotal: real, shipping: real,
              tax: real, total: real, hint: Option<real>)

  /** The cart page: the empty state for an empty cart, otherwise the lines
      whose product the catalog knows and the order summary. */
  function CartPage(items: seq<LineItem>, products: seq<Product>): (v: CartView)
    ensures v.EmptyState? <==> items == []
    ensures v.Summary? ==> v.lines == CartItemsWithProducts(items, products)
    ensures v.Summary? ==> v.subtotal == Total(items, products) && v.totalItems == TotalItems(items)
    ensures v.Summary? ==> v.total == v.subtotal + v.shipping + v.tax
    ensures v.Summary? ==> (v.hint.Some? <==> v.subtotal < FreeShippingThreshold)
    ensures v.Summary? ==> v.shipping == Shipping(v.subtotal) && v.tax == Tax(v.subtotal)
    ensures v.Summary? && v.hint.Some? ==> v.hint.value == HintAmount(v.subtotal)
  {
    if items == [] then EmptyState
    else
      var subtotal := Total(items, products);
      HintBelowThreshold(subtotal);
      Summary(CartItemsWithProducts(items, products), TotalItems(items), subtotal, Shipping(subtotal),
              Tax(subtotal), GrandTotal(subtotal),
              if ShowFreeShippingHint(subtotal) then Some(HintAmount(subtotal)) else None)
  }

  /** The summary's subtotal is the sum of the subtotals of the rendered lines. */
  lemma SummaryMatchesLines(items: seq<LineItem>, products: seq<Product>)
    requires items != []
    ensures var v := CartPage(items, products);
            v.subtotal == SubtotalSum(v.lines)
  {
    SubtotalsMakeTotal(items, products);
  }
}
