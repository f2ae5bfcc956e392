/**
  The cart hook: an ordered list of (productId, quantity) lines, changed by
  add, remove, update and clear, with stock checks against a product record,
  and the totals derived from the lines and the loaded catalog.

  Each operation's new line list is a function of the old one (`AddLine`,
  `RemoveLines`, `SetQuantity`, `UpdatedLines`); the `Cart` class holds the
  session state and its methods replace `items` by those functions.
 */
module CartStore {
  import opened Common
  import opened Products

  datatype LineItem = LineItem(productId: int, quantity: int)

  /** The notification an operation raises, as far as the cart decides it. */
  datatype Toast = NoToast | NotAvailable | OnlyInStock(count: nat) | ItemRemoved

  /** At most one line per product. */
  predicate UniqueLines(items: seq<LineItem>) {
    forall i, j :: 0 <= i < j < |items| ==> items[i].productId != items[j].productId
  }

  /** Every quantity is at least 1 and, for a product the catalog knows, at most its stock. */
  predicate WithinStock(items: seq<LineItem>, products: seq<Product>) {
    forall i :: 0 <= i < |items| ==>
      1 <= items[i].quantity &&
      (FindProduct(products, items[i].productId).Some? ==>
         items[i].quantity <= FindProduct(products, items[i].productId).value.stockCount)
  }

  /** `items.find(item => item.productId === id)`. */
  function FindLine(items: seq<LineItem>, id: int): (r: Option<LineItem>)
    ensures r.None? <==> forall i :: 0 <= i < |items| ==> items[i].productId != id
    ensures r.Some? ==> exists i :: 0 <= i < |items| && items[i] == r.value && items[i].productId == id &&
                                   forall j :: 0 <= j < i ==> items[j].productId != id
  {
    if items == [] then None
    else if items[0].productId == id then
      assert items[0] == items[0];
      Some(items[0])
    else
      var r := FindLine(items[1..], id);
      assert forall i :: 1 <= i < |items| ==> items[i] == items[1..][i - 1];
      r
  }

  /** `isInCart`: `items.some(item => item.productId === id)`. */
  function IsInCart(items: seq<LineItem>, id: int): (r: bool)
    ensures r <==> exists i :: 0 <= i < |items| && items[i].productId == id
  {
    if items == [] then false
    else if items[0].productId == id then true
    else
      assert forall i :: 1 <= i < |items| ==> items[i] == items[1..][i - 1];
      IsInCart(items[1..], id)
  }

  /** `getItemQuantity`: the quantity of the product's line, 0 when it has none. */
  function ItemQuantity(items: seq<LineItem>, id: int): (q: int)
    ensures !IsInCart(items, id) ==> q == 0
    ensures IsInCart(items, id) ==> LineItem(id, q) in items
    ensures forall i :: 0 <= i < |items| && items[i].productId == id ==>
                          (forall j :: 0 <= j < i ==> items[j].productId != id) ==> q == items[i].quantity
  {
    match FindLine(items, id)
    case None => 0
    case Some(line) => line.quantity
  }

  /** `getTotalItems`: the sum of the quantities. */
  function TotalItems(items: seq<LineItem>): int {
    if items == [] then 0 else items[0].quantity + TotalItems(items[1..])
  }

  lemma {:induction false} TotalItemsAppend(a: seq<LineItem>, b: seq<LineItem>)
    ensures TotalItems(a + b) == TotalItems(a) + TotalItems(b)
  {
    if a == [] {
      assert a + b == b;
    } else {
      assert (a + b)[1..] == a[1..] + b;
      TotalItemsAppend(a[1..], b);
    }
  }

  /** With every quantity at least 1, there are at least as many items as lines. */
  lemma {:induction false} TotalItemsAtLeastLines(items: seq<LineItem>)
    requires forall i :: 0 <= i < |items| ==> items[i].quantity >= 1
    ensures TotalItems(items) >= |items|
  {
    if items != [] {
      TotalItemsAtLeastLines(items[1..]);
    }
  }

  /** What one line adds to `getTotal`: price times quantity when the catalog
      knows the product, nothing otherwise. */
  function LineAmount(item: LineItem, products: seq<Product>): real {
    match FindProduct(products, item.productId)
    case None => 0.0
    case Some(p) => p.price * item.quantity as real
  }

  /** `getTotal`: the sum of the line amounts. */
  function Total(items: seq<LineItem>, products: seq<Product>): real {
    if items == [] then 0.0 else LineAmount(items[0], products) + Total(items[1..], products)
  }

  /** A line of `getCartItemsWithProducts`: the line and its product. */
  datatype ResolvedLine = ResolvedLine(item: LineItem, product: Product)

  function ItemsOf(r: seq<ResolvedLine>): (s: seq<LineItem>)
    ensures |s| == |r| && forall i :: 0 <= i < |r| ==> s[i] == r[i].item
  {
    if r == [] then [] else [r[0].item] + ItemsOf(r[1..])
  }

  /** `getCartItemsWithProducts`: each line paired with its product; lines
      whose product the catalog does not know are dropped. */
  function CartItemsWithProducts(items: seq<LineItem>, products: seq<Product>): (r: seq<ResolvedLine>)
    ensures forall i :: 0 <= i < |r| ==> FindProduct(products, r[i].item.productId) == Some(r[i].product)
    ensures forall i :: 0 <= i < |r| ==> r[i].item in items
    ensures forall i :: 0 <= i < |items| && FindProduct(products, items[i].productId).Some? ==>
              items[i] in ItemsOf(r)
    ensures Subsequence(ItemsOf(r), items)
  {
    if items == [] then
      SubsequenceEmpty<LineItem>([]);
      []
    else
      var rest := CartItemsWithProducts(items[1..], products);
      assert items == [items[0]] + items[1..];
      match FindProduct(products, items[0].productId)
      case None =>
        SubsequenceCons(items[0], ItemsOf(rest), items[1..], false);
        rest
      case Some(p) =>
        var r := [ResolvedLine(items[0], p)] + rest;
        assert ItemsOf(r) == [items[0]] + ItemsOf(rest);
        SubsequenceCons(items[0], ItemsOf(rest), items[1..], true);
        r
  }

  /** The sum of price times quantity over resolved lines. */
  function ResolvedTotal(r: seq<ResolvedLine>): real {
    if r == [] then 0.0 else r[0].product.price * r[0].item.quantity as real + ResolvedTotal(r[1..])
  }

  /** Unresolved lines add nothing: `getTotal` is the total of the lines
      `getCartItemsWithProducts` keeps. */
  lemma {:induction false} TotalIgnoresUnresolved(items: seq<LineItem>, products: seq<Product>)
    ensures Total(items, products) == ResolvedTotal(CartItemsWithProducts(items, products))
  {
    if items != [] {
      var rest := CartItemsWithProducts(items[1..], products);
      TotalIgnoresUnresolved(items[1..], products);
      match FindProduct(products, items[0].productId)
      case None =>
        assert CartItemsWithProducts(items, products) == rest;
      case Some(p) =>
        var r := [ResolvedLine(items[0], p)] + rest;
        assert CartItemsWithProducts(items, products) == r;
        assert r[1..] == rest;
    }
  }

  /** With positive quantities the total is never negative. */
  lemma {:induction false} TotalNonNegative(items: seq<LineItem>, products: seq<Product>)
    requires forall i :: 0 <= i < |items| ==> items[i].quantity >= 0
    ensures Total(items, products) >= 0.0
  {
    if items != [] {
      TotalNonNegative(items[1..], products);
    }
  }

  /** `items.map(item => item.productId === id ? {...item, quantity: q} : item)`. */
  function SetQuantity(items: seq<LineItem>, id: int, q: int): (r: seq<LineItem>)
    ensures |r| == |items|
    ensures forall i :: 0 <= i < |items| ==> r[i].productId == items[i].productId
    ensures forall i :: 0 <= i < |items| ==> r[i].quantity == if items[i].productId == id then q else items[i].quantity
  {
    if items == [] then []
    else [if items[0].productId == id then LineItem(id, q) else items[0]] + SetQuantity(items[1..], id, q)
  }

  /** `items.filter(item => item.productId !== id)`. */
  function RemoveLines(items: seq<LineItem>, id: int): (r: seq<LineItem>)
    ensures !IsInCart(r, id)
    ensures Subsequence(r, items)
    ensures forall i :: 0 <= i < |items| && items[i].productId != id ==> items[i] in r
    ensures !IsInCart(items, id) ==> r == items
  {
    if items == [] then
      SubsequenceEmpty<LineItem>([]);
      []
    else
      var rest := RemoveLines(items[1..], id);
      assert items == [items[0]] + items[1..];
      SubsequenceCons(items[0], rest, items[1..], items[0].productId != id);
      if items[0].productId == id then rest else [items[0]] + rest
  }

  /** `RemoveLines` keeps every line of another product exactly as often as
      it occurs. */
  lemma {:induction false} RemoveLinesCounts(items: seq<LineItem>, id: int)
    ensures forall l: LineItem :: l.productId != id ==> multiset(RemoveLines(items, id))[l] == multiset(items)[l]
  {
    if items != [] {
      RemoveLinesCounts(items[1..], id);
      forall l: LineItem | l.productId != id
        ensures multiset(RemoveLines(items, id))[l] == multiset(items)[l]
      {
        RemoveLinesCountStep(items, id, l);
      }
    }
  }

  /** One line of `RemoveLinesCounts`: its count after putting `items[0]`
      back in front. */
  lemma RemoveLinesCountStep(items: seq<LineItem>, id: int, l: LineItem)
    requires items != [] && l.productId != id
    requires multiset(RemoveLines(items[1..], id))[l] == multiset(items[1..])[l]
    ensures multiset(RemoveLines(items, id))[l] == multiset(items)[l]
  {
    var rest := RemoveLines(items[1..], id);
    assert items == [items[0]] + items[1..];
    assert multiset(items) == multiset([items[0]]) + multiset(items[1..]);
    if items[0].productId != id {
      assert RemoveLines(items, id) == [items[0]] + rest;
      assert multiset([items[0]] + rest) == multiset([items[0]]) + multiset(rest);
    } else {
      assert RemoveLines(items, id) == rest;
    }
  }

  /** The quantity that `addItem` checks against the stock: the existing
      line's quantity plus the added one, or the added one alone. */
  function RequestedQuantity(items: seq<LineItem>, id: int, quantity: int): (n: int)
    ensures n == ItemQuantity(items, id) + quantity
  {
    match FindLine(items, id)
    case Some(line) => line.quantity + quantity
    case None => quantity
  }

  /** `addItem` accepts the request when the requested quantity fits the stock. */
  predicate AddAccepted(items: seq<LineItem>, product: Product, quantity: int) {
    RequestedQuantity(items, product.id, quantity) <= product.stockCount
  }

  /** The `setItems` updater of `addItem` for a product that is present and in
      stock: a rejected request keeps the lines; an accepted one sets the
      existing line to the sum, or appends a new line at the end. */
  function AddLine(items: seq<LineItem>, product: Product, quantity: int): (r: seq<LineItem>)
    ensures !AddAccepted(items, product, quantity) ==> r == items
    ensures AddAccepted(items, product, quantity) && !IsInCart(items, product.id) ==>
              r == items + [LineItem(product.id, quantity)]
    ensures AddAccepted(items, product, quantity) && IsInCart(items, product.id) ==>
              |r| == |items| &&
              forall i :: 0 <= i < |items| ==>
                r[i] == if items[i].productId == product.id
                        then LineItem(product.id, ItemQuantity(items, product.id) + quantity)
                        else items[i]
  {
    if !AddAccepted(items, product, quantity) then items
    else match FindLine(items, product.id)
      case Some(existing) => SetQuantity(items, product.id, existing.quantity + quantity)
      case None => items + [LineItem(product.id, quantity)]
  }

  /** The lines after `updateQuantity(id, q)` against the loaded catalog. */
  function UpdatedLines(items: seq<LineItem>, products: seq<Product>, id: int, q: int): (r: seq<LineItem>)
    ensures q < 1 ==> r == RemoveLines(items, id)
    ensures 1 <= q && FindProduct(products, id).Some? && q > FindProduct(products, id).value.stockCount ==> r == items
    ensures 1 <= q && (FindProduct(products, id).None? || q <= FindProduct(products, id).value.stockCount) ==>
              r == SetQuantity(items, id, q)
  {
    if q < 1 then RemoveLines(items, id)
    else
      var product := FindProduct(products, id);
      if product.Some? && q > product.value.stockCount then items
      else SetQuantity(items, id, q)
  }

  lemma SetQuantityUnique(items: seq<LineItem>, id: int, q: int)
    requires UniqueLines(items)
    ensures UniqueLines(SetQuantity(items, id, q))
  {
  }

  lemma SubsequenceUnique(r: seq<LineItem>, items: seq<LineItem>)
    requires Subsequence(r, items) && UniqueLines(items)
    ensures UniqueLines(r)
  {
    var m: seq<nat> :| Embeds(m, r, items);
    forall i, j | 0 <= i < j < |r| ensures r[i].productId != r[j].productId {
      assert m[i] < m[j];
    }
  }

  /** Every operation keeps at most one line per product. */
  lemma OperationsKeepLinesUnique(items: seq<LineItem>, products: seq<Product>, product: Product, id: int, q: int)
    requires UniqueLines(items)
    ensures UniqueLines(AddLine(items, product, q))
    ensures UniqueLines(RemoveLines(items, id))
    ensures UniqueLines(UpdatedLines(items, products, id, q))
  {
    AddLineUnique(items, product, q);
    SetQuantityUnique(items, id, q);
    SubsequenceUnique(RemoveLines(items, id), items);
  }

  lemma AddLineUnique(items: seq<LineItem>, product: Product, q: int)
    requires UniqueLines(items)
    ensures UniqueLines(AddLine(items, product, q))
  {
    var r := AddLine(items, product, q);
    if AddAccepted(items, product, q) {
      if IsInCart(items, product.id) {
        assert forall i :: 0 <= i < |r| ==> r[i].productId == items[i].productId;
      } else {
        forall i, j | 0 <= i < j < |r| ensures r[i].productId != r[j].productId {
          assert r[i] == items[i];
        }
      }
    }
  }

  lemma {:induction false} ItemQuantityUnique(items: seq<LineItem>, id: int, i: int)
    requires UniqueLines(items) && 0 <= i < |items| && items[i].productId == id
    ensures ItemQuantity(items, id) == items[i].quantity
  {
    if i > 0 {
      assert items[0].productId != id;
      ItemQuantityUnique(items[1..], id, i - 1);
    }
  }

  /** With one line per product, setting a product's quantity changes the item
      count by the difference, and adds nothing when the product has no line. */
  lemma {:induction false} SetQuantityTotalItems(items: seq<LineItem>, id: int, q: int)
    requires UniqueLines(items)
    ensures TotalItems(SetQuantity(items, id, q)) ==
            TotalItems(items) + (if IsInCart(items, id) then q - ItemQuantity(items, id) else 0)
  {
    if items != [] {
      SetQuantityTotalItems(items[1..], id, q);
      if items[0].productId == id {
        assert !IsInCart(items[1..], id);
      } else {
        assert IsInCart(items, id) == IsInCart(items[1..], id);
        if IsInCart(items, id) {
          var i :| 0 <= i < |items| && items[i].productId == id;
          ItemQuantityUnique(items, id, i);
          ItemQuantityUnique(items[1..], id, i - 1);
        }
      }
    }
  }

  /** Removing a product's line takes its quantity off the item count. */
  lemma {:induction false} RemoveLinesTotalItems(items: seq<LineItem>, id: int)
    requires UniqueLines(items)
    ensures TotalItems(RemoveLines(items, id)) == TotalItems(items) - ItemQuantity(items, id)
  {
    if items != [] {
      RemoveLinesTotalItems(items[1..], id);
      if items[0].productId == id {
        assert !IsInCart(items[1..], id);
        assert RemoveLines(items[1..], id) == items[1..];
      } else if IsInCart(items, id) {
        var i :| 0 <= i < |items| && items[i].productId == id;
        ItemQuantityUnique(items, id, i);
        ItemQuantityUnique(items[1..], id, i - 1);
      }
    }
  }

  /** An accepted `addItem` adds exactly the requested quantity to the item
      count; a rejected one adds nothing. */
  lemma AddLineTotalItems(items: seq<LineItem>, product: Product, quantity: int)
    requires UniqueLines(items)
    ensures TotalItems(AddLine(items, product, quantity)) ==
            TotalItems(items) + (if AddAccepted(items, product, quantity) then quantity else 0)
  {
    if AddAccepted(items, product, quantity) {
      if IsInCart(items, product.id) {
        var q := ItemQuantity(items, product.id) + quantity;
        assert AddLine(items, product, quantity) == SetQuantity(items, product.id, q);
        SetQuantityTotalItems(items, product.id, q);
      } else {
        var line := [LineItem(product.id, quantity)];
        assert AddLine(items, product, quantity) == items + line;
        assert TotalItems(line) == quantity by {
          assert line[1..] == [];
        }
        TotalItemsAppend(items, line);
      }
    }
  }

  /** `addItem` with a positive quantity of the catalog's own record keeps every
      quantity within [1, stockCount]. */
  lemma AddLineWithinStock(items: seq<LineItem>, products: seq<Product>, product: Product, quantity: int)
    requires WithinStock(items, products) && UniqueLines(items)
    requires FindProduct(products, product.id) == Some(product)
    requires quantity >= 1
    ensures WithinStock(AddLine(items, product, quantity), products)
  {
    var r := AddLine(items, product, quantity);
    if AddAccepted(items, product, quantity) && IsInCart(items, product.id) {
      var k :| 0 <= k < |items| && items[k].productId == product.id;
      ItemQuantityUnique(items, product.id, k);
    }
  }

  /** `updateQuantity` keeps every quantity within [1, stockCount]. */
  lemma UpdatedLinesWithinStock(items: seq<LineItem>, products: seq<Product>, id: int, q: int)
    requires WithinStock(items, products)
    ensures WithinStock(UpdatedLines(items, products, id, q), products)
  {
    var r := UpdatedLines(items, products, id, q);
    if q < 1 {
      forall i | 0 <= i < |r| ensures 1 <= r[i].quantity {
        assert r[i] in RemoveLines(items, id);
      }
    }
  }

  /** `updateQuantity` with a quantity below 1 is `removeItem`. */
  lemma UpdateBelowOneRemoves(items: seq<LineItem>, products: seq<Product>, id: int, q: int)
    requires q < 1
    ensures UpdatedLines(items, products, id, q) == RemoveLines(items, id)
  {
  }

  /** `updateQuantity` never adds a line, and never drops one unless q < 1. */
  lemma UpdatedLinesNeverInserts(items: seq<LineItem>, products: seq<Product>, id: int, q: int, x: int)
    ensures IsInCart(UpdatedLines(items, products, id, q), x) ==> IsInCart(items, x)
    ensures q >= 1 ==> (IsInCart(UpdatedLines(items, products, id, q), x) <==> IsInCart(items, x))
  {
    var r := UpdatedLines(items, products, id, q);
    if IsInCart(r, x) {
      var i :| 0 <= i < |r| && r[i].productId == x;
      if q < 1 {
        assert r[i] in RemoveLines(items, id);
        var j :| 0 <= j < |items| && items[j] == r[i];
      } else {
        assert items[i].productId == x;
      }
    }
    if q >= 1 && IsInCart(items, x) {
      var i :| 0 <= i < |items| && items[i].productId == x;
      assert r[i].productId == x;
    }
  }

  /** The cart hook's state: the lines and the catalog it loaded. */
  class Cart {
    var items: seq<LineItem>
    var products: seq<Product>

    constructor (catalog: seq<Product>)
      ensures items == [] && products == catalog
    {
      items := [];
      products := catalog;
    }

    /** `addItem(product, quantity = 1)`: false, with "not available", for a
        missing or out-of-stock product; otherwise true, whatever the stock
        check decided. */
    method AddItem(product: Option<Product>, quantity: int := 1) returns (ok: bool, toast: Toast)
      modifies this
      ensures products == old(products)
      ensures ok <==> product.Some? && product.value.inStock
      ensures !ok ==> items == old(items) && toast == NotAvailable
      ensures ok ==> items == AddLine(old(items), product.value, quantity)
      ensures ok ==> toast == if AddAccepted(old(items), product.value, quantity) then NoToast
                              else OnlyInStock(product.value.stockCount)
      ensures UniqueLines(old(items)) ==> UniqueLines(items)
    {
      if product.None? || !product.value.inStock {
        return false, NotAvailable;
      }
      var p := product.value;
      if UniqueLines(items) {
        OperationsKeepLinesUnique(items, products, p, p.id, quantity);
      }
      toast := if AddAccepted(items, p, quantity) then NoToast else OnlyInStock(p.stockCount);
      items := AddLine(items, p, quantity);
      ok := true;
    }

    /** `removeItem(id)`: drops every line of the product; always "removed". */
    method RemoveItem(id: int) returns (toast: Toast)
      modifies this
      ensures products == old(products)
      ensures items == RemoveLines(old(items), id)
      ensures toast == ItemRemoved
      ensures UniqueLines(old(items)) ==> UniqueLines(items)
    {
      if UniqueLines(items) {
        SubsequenceUnique(RemoveLines(items, id), items);
      }
      items := RemoveLines(items, id);
      toast := ItemRemoved;
    }

    /** `updateQuantity(id, q)`: below 1 it removes the line; above the stock
        of a product the catalog knows it refuses; otherwise it sets the
        quantity of the product's line, if there is one. */
    method UpdateQuantity(id: int, q: int) returns (toast: Toast)
      modifies this
      ensures products == old(products)
      ensures items == UpdatedLines(old(items), products, id, q)
      ensures toast == if q < 1 then ItemRemoved
                       else if FindProduct(products, id).Some? && q > FindProduct(products, id).value.stockCount
                       then OnlyInStock(FindProduct(products, id).value.stockCount)
                       else NoToast
      ensures UniqueLines(old(items)) ==> UniqueLines(items)
      ensures WithinStock(old(items), products) ==> WithinStock(items, products)
    {
      if q < 1 {
        toast := RemoveItem(id);
        return;
      }
      var product := FindProduct(products, id);
      if product.Some? && q > product.value.stockCount {
        return OnlyInStock(product.value.stockCount);
      }
      if WithinStock(items, products) {
        UpdatedLinesWithinStock(items, products, id, q);
      }
      items := SetQuantity(items, id, q);
      toast := NoToast;
    }

    /** `clearCart()`: no lines at all. */
    method ClearCart()
      modifies this
      ensures products == old(products)
      ensures items == []
    {
      items := [];
    }
  }

  /** A session: one product with five in stock, added twice. */
  method CartScenario() {
    var book := Product(1, "Book", "A book", 10.0, None, "Books", 4.0, true, 5);
    var cart := new Cart([book]);
    var ok, toast := cart.AddItem(Some(book), 2);
    assert cart.items == [LineItem(1, 2)];
    assert TotalItems(cart.items) == 2;
    assert Total(cart.items, cart.products) == 20.0;
    ok, toast := cart.AddItem(Some(book), 4);
    assert ok && toast == OnlyInStock(5);
    assert cart.items == [LineItem(1, 2)];
  }
}
