/**
  The product page: a quantity stepper clamped to [1, stockCount], the guard
  in front of "Add to Cart" and "Buy Now", and the discount figures.
 */
module ProductPage {
  import opened Common
  import opened Products
  import opened CartStore

  /** `originalPrice > price`; an absent original price compares false. */
  predicate HasDiscount(p: Product) {
    p.originalPrice.Some? && p.originalPrice.value > p.price
  }

  /** The amount saved: the difference when discounted, 0 otherwise. */
  function Savings(p: Product): (r: real)
    ensures r >= 0.0
    ensures r > 0.0 <==> HasDiscount(p)
    ensures HasDiscount(p) ==> p.price + r == p.originalPrice.value
  {
    if HasDiscount(p) then p.originalPrice.value - p.price else 0.0
  }

  /** `Math.round`: the nearest integer, halves rounded up. */
  function Round(x: real): (n: int)
    ensures x - 0.5 < n as real <= x + 0.5
  {
    (x + 0.5).Floor
  }

  /** The share of the original price taken off, in percent and rounded;
      0 when not discounted. */
  function DiscountPercentage(p: Product): (pct: int)
    ensures 0 <= pct <= 100
    ensures !HasDiscount(p) ==> pct == 0
    ensures HasDiscount(p) ==>
              var op := p.originalPrice.value;
              (op - p.price) / op * 100.0 - 0.5 < pct as real <= (op - p.price) / op * 100.0 + 0.5
  {
    if HasDiscount(p) then
      var op := p.originalPrice.value;
      var share := (op - p.price) / op;
      ShareWithinUnit(op, p.price);
      Round(share * 100.0)
    else 0
  }

  /** A discount takes off more than nothing and at most everything. */
  lemma ShareWithinUnit(op: real, price: real)
    requires 0.0 <= price < op
    ensures 0.0 < (op - price) / op <= 1.0
  {
    var share := (op - price) / op;
    assert share * op == op - price;
  }

  /** The early return of `handleAddToCart` and `handleBuyNow` is skipped
      unless the product is absent, or out of stock with a zero count. */
  predicate AddGuardPasses(product: Option<Product>) {
    !(product.None? || (!product.value.inStock && product.value.stockCount == 0))
  }

  /** The disabled state of "Add to Cart". */
  predicate AddToCartDisabled(items: seq<LineItem>, p: Product) {
    IsInCart(items, p.id) || !p.inStock
  }

  /** An enabled "Add to Cart" always gets past the guard; so does a product
      marked out of stock with a count left, which the cart then refuses
      (`HandleAddToCart`). */
  lemma GuardAgainstCart(items: seq<LineItem>, p: Product)
    ensures !AddToCartDisabled(items, p) ==> AddGuardPasses(Some(p))
    ensures !p.inStock && p.stockCount > 0 ==> AddGuardPasses(Some(p))
  {
  }

  /** The product page's state: the loaded product and the chosen quantity. */
  class ProductDetail {
    var product: Option<Product>
    var quantity: int

    constructor (loaded: Option<Product>)
      ensures product == loaded && quantity == 1
    {
      product := loaded;
      quantity := 1;
    }

    /** Within [1, stockCount], or exactly 1 when the stock is empty. */
    predicate QuantityInRange()
      reads this
    {
      1 <= quantity && (product.Some? && product.value.stockCount >= 1 ==> quantity <= product.value.stockCount)
    }

    /** The disabled state of the "+" button. */
    predicate IncrementDisabled()
      reads this
      requires product.Some?
    {
      quantity >= product.value.stockCount || !product.value.inStock
    }

    /** "-": `max(1, quantity - 1)`. */
    method Decrement()
      modifies this
      ensures product == old(product)
      ensures quantity == if old(quantity) - 1 > 1 then old(quantity) - 1 else 1
      ensures quantity >= 1
      ensures old(QuantityInRange()) ==> QuantityInRange()
    {
      quantity := if quantity - 1 > 1 then quantity - 1 else 1;
    }

    /** "+": does nothing while disabled, otherwise `min(stockCount, quantity + 1)`. */
    method Increment()
      requires product.Some?
      modifies this
      ensures product == old(product)
      ensures old(IncrementDisabled()) ==> quantity == old(quantity)
      ensures !old(IncrementDisabled()) ==> quantity == old(quantity) + 1 && quantity <= product.value.stockCount
      ensures old(QuantityInRange()) ==> QuantityInRange()
    {
      if IncrementDisabled() {
        return;
      }
      var stock := product.value.stockCount;
      quantity := if stock < quantity + 1 then stock else quantity + 1;
    }

    /** `handleAddToCart`: past the guard, the cart's `addItem` runs with the
        chosen quantity and the success message is raised whatever it did. */
    method HandleAddToCart(cart: Cart) returns (success: bool, cartToast: Toast)
      modifies cart
      ensures success <==> AddGuardPasses(product)
      ensures cart.products == old(cart.products)
      ensures !success ==> cart.items == old(cart.items)
      ensures success && product.value.inStock ==>
                cart.items == AddLine(old(cart.items), product.value, quantity)
      ensures success && product.value.inStock ==>
                cartToast == if AddAccepted(old(cart.items), product.value, quantity) then NoToast
                             else OnlyInStock(product.value.stockCount)
      ensures success && !product.value.inStock ==> cart.items == old(cart.items) && cartToast == NotAvailable
      ensures !success ==> cartToast == NoToast
    {
      if !AddGuardPasses(product) {
        return false, NoToast;
      }
      var _, t := cart.AddItem(product, quantity);
      return true, t;
    }

    /** `handleBuyNow`: the same guard and `addItem`, then the way to checkout. */
    method HandleBuyNow(cart: Cart) returns (toCheckout: bool)
      modifies cart
      ensures toCheckout <==> AddGuardPasses(product)
      ensures cart.products == old(cart.products)
      ensures !toCheckout ==> cart.items == old(cart.items)
      ensures toCheckout && product.value.inStock ==>
                cart.items == AddLine(old(cart.items), product.value, quantity)
      ensures toCheckout && !product.value.inStock ==> cart.items == old(cart.items)
    {
      if !AddGuardPasses(product) {
        return false;
      }
      var _, _ := cart.AddItem(product, quantity);
      return true;
    }
  }
}
