/**
  One line of the cart page: the quantity buttons decide whether a requested
  quantity removes the line, is forwarded to the cart, or is ignored; the
  line shows its subtotal and a "max quantity" flag.
 */
module CartLineView {
  import opened Common
  import opened Products
  import opened CartStore

  /** What the line asks of the cart for a requested quantity. */
  datatype QuantityAction = RemoveLine(productId: int) | UpdateLine(productId: int, quantity: int) | Ignore

  /** `handleQuantityChange`: below 1 removes the line, up to the stock
      forwards the quantity unchanged, above the stock does nothing. */
  function HandleQuantityChange(item: LineItem, product: Product, newQuantity: int): (a: QuantityAction)
    ensures a == RemoveLine(item.productId) <==> newQuantity < 1
    ensures a == UpdateLine(item.productId, newQuantity) <==> 1 <= newQuantity <= product.stockCount
    ensures a == Ignore <==> newQuantity >= 1 && newQuantity > product.stockCount
    ensures a.UpdateLine? ==> a.productId == item.productId && a.quantity == newQuantity
  {
    if newQuantity < 1 then RemoveLine(item.productId)
    else if newQuantity <= product.stockCount then UpdateLine(item.productId, newQuantity)
    else Ignore
  }

  /** The cart's lines after the action reaches the cart. */
  function Dispatch(items: seq<LineItem>, products: seq<Product>, a: QuantityAction): seq<LineItem> {
    match a
    case RemoveLine(id) => RemoveLines(items, id)
    case UpdateLine(id, q) => UpdatedLines(items, products, id, q)
    case Ignore => items
  }

  /** The line's guard and the cart's own stock check agree: for the catalog's
      record of the product, a forwarded quantity is never refused by the cart,
      and every request keeps the cart within stock. */
  lemma QuantityChangeAgreesWithCart(items: seq<LineItem>, products: seq<Product>, item: LineItem,
                                     product: Product, newQuantity: int)
    requires FindProduct(products, item.productId) == Some(product)
    requires WithinStock(items, products)
    ensures var a := HandleQuantityChange(item, product, newQuantity);
            a.UpdateLine? ==> Dispatch(items, products, a) == SetQuantity(items, item.productId, newQuantity)
    ensures WithinStock(Dispatch(items, products, HandleQuantityChange(item, product, newQuantity)), products)
  {
    var a := HandleQuantityChange(item, product, newQuantity);
    match a
    case RemoveLine(id) => UpdatedLinesWithinStock(items, products, id, 0);
    case UpdateLine(id, q) => UpdatedLinesWithinStock(items, products, id, q);
    case Ignore =>
  }

  /** `price * quantity`. */
  function LineSubtotal(item: LineItem, product: Product): (r: real)
    ensures item.quantity >= 0 ==> r >= 0.0
    ensures item.quantity >= 1 ==> r >= product.price
  {
    product.price * item.quantity as real
  }

  /** The "Max quantity reached" note. */
  predicate MaxQuantityReached(item: LineItem, product: Product) {
    item.quantity >= product.stockCount
  }

  /** The disabled state of the "+" button. */
  predicate IncrementDisabled(item: LineItem, product: Product, isRemoving: bool) {
    item.quantity >= product.stockCount || isRemoving
  }

  /** Outside the removal animation, "+" is disabled exactly when the note
      shows, and an enabled "+" always forwards the next quantity. */
  lemma IncrementMatchesMaxNote(item: LineItem, product: Product)
    ensures IncrementDisabled(item, product, false) <==> MaxQuantityReached(item, product)
    ensures !IncrementDisabled(item, product, false) && item.quantity >= 0 ==>
              HandleQuantityChange(item, product, item.quantity + 1) == UpdateLine(item.productId, item.quantity + 1)
  {
  }

  /** "-" on a line holding one item removes the line. */
  lemma DecrementFromOneRemoves(item: LineItem, product: Product)
    requires item.quantity == 1
    ensures HandleQuantityChange(item, product, item.quantity - 1) == RemoveLine(item.productId)
  {
  }

  /** The subtotals shown on the cart page, added up. */
  function SubtotalSum(lines: seq<ResolvedLine>): real {
    if lines == [] then 0.0 else LineSubtotal(lines[0].item, lines[0].product) + SubtotalSum(lines[1..])
  }

  /** The rendered lines' subtotals add up to the cart's `getTotal`. */
  lemma SubtotalsMakeTotal(items: seq<LineItem>, products: seq<Product>)
    ensures SubtotalSum(CartItemsWithProducts(items, products)) == Total(items, products)
  {
    TotalIgnoresUnresolved(items, products);
    SubtotalSumIsResolvedTotal(CartItemsWithProducts(items, products));
  }

  lemma {:induction false} SubtotalSumIsResolvedTotal(lines: seq<ResolvedLine>)
    ensures SubtotalSum(lines) == ResolvedTotal(lines)
  {
    if lines != [] {
      SubtotalSumIsResolvedTotal(lines[1..]);
    }
  }
}
