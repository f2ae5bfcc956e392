# Storefront core in Dafny

This project models the rules at the heart of a React storefront:

- **Cart store** (`useCart`): line items of (productId, quantity). The operations are add, remove, update and clear. Stock is checked against the product record, and the derived counts and totals are read against the loaded catalog.
- **Quantity guards** on the cart line and on the product page, and the product page's discount figures.
- **Catalog page** filters: a chain of five `.filter` stages, the merge of partial filter updates, and the round trip of the filters through the URL's query parameters (`toString` out, `parseInt` back).
- **Filter side panel**: category check boxes, the price sliders' local range, the rating choices and the active-filter chips.
- **Sort engine** of the product grid: five comparator keys plus "featured". `Array.prototype.sort` is stable, so each key's result is the unique stable sort. It is computed by an in-place insertion sort on an array.
- **Pricing**:
  - shipping is free strictly above $50 and $9.99 otherwise;
  - tax is 8 %;
  - a free-shipping hint appears below $50.
- **Checkout**:
  - three steps, each validated before the next;
  - input formatters for the phone, card number, expiry date and CVV;
  - the order record built on submit, with the cart emptied only after the order is recorded.
- **Record stores**: the order table (create, look up, update status, delete) and the product table. The product table's featured query sorts the table itself in place. The home page does the same to the list it fetches.

Where the code keeps state that its handlers update, the model is a class whose methods state the new state in terms of the old. Examples: the cart, the catalog page, the price sliders, the product page's stepper, the checkout wizard and the two record stores. Each new value is given by a function: `AddLine`, `UpdatedLines`, `Merge`, `UrlOf`, `FromUrl`, `StepErrors`, `NewOrder` and `SortedBy`. The properties are lemmas about those functions.

The in-place sorts and the card formatter's loop are methods with loop invariants. Each is proved equal to its specification function:

- `ProductSort.SortInPlace` equals `SortedBy`;
- `CheckoutFormat.FormatCardNumber` equals `CardFormat`.

JavaScript semantics are modelled where they matter:

- `parseInt` can return NaN (`Text.JsInt`), and every comparison with NaN is false.
- `slice` takes negative ends.
- `\s` covers the ECMAScript whitespace set.
- `Object.keys(errors).length`, the spread merge of objects, and `find`/`findIndex` returning the first match.

Behaviour of the code worth noting:

- `addItem` returns `true` even when its stock check refuses the request (`useCart.js:47-72`).
- `updateQuantity` skips the stock check for a product the loaded catalog does not know (`useCart.js:86-90`).
- The product service's featured query and the home page sort the product list itself, not a copy. Only the product grid sorts a copy.
- `addItem` checks the stock of the record it is given, and accepts any quantity. Quantities stay within [1, stockCount] only when the quantity added is positive and the record is the catalog's own. `CartStore.AddLineWithinStock` states exactly that.

## Model

| member | source | states |
|---|---|---|
| CartStore.FindLine | src/hooks/useCart.js:48 | the first line with that product id, or none exactly when no line has it |
| CartStore.IsInCart | src/hooks/useCart.js:105-107 | true exactly when some line has the product id |
| CartStore.ItemQuantity | src/hooks/useCart.js:109-112 | 0 for a product without a line, otherwise the quantity of the first line of that product |
| CartStore.ItemQuantityUnique | src/hooks/useCart.js:109-112 | with one line per product, the quantity is that of the product's only line |
| CartStore.TotalItemsAppend | src/hooks/useCart.js:114-116 | the item count of two line lists joined is the sum of their counts |
| CartStore.TotalItems | src/hooks/useCart.js:114-116 | the sum of the quantities; stated by TotalItemsAppend and TotalItemsAtLeastLines |
| CartStore.TotalItemsAtLeastLines | src/hooks/useCart.js:114-116 | with every quantity at least 1, the item count is at least the number of lines |
| CartStore.CartItemsWithProducts | src/hooks/useCart.js:125-133 | each kept line is paired with the product the catalog finds for it; every line whose product is found is kept; kept lines are the original lines in order |
| CartStore.TotalIgnoresUnresolved | src/hooks/useCart.js:118-133 | `getTotal` equals the price-times-quantity sum over the resolved lines: lines with an unknown product add nothing |
| CartStore.TotalNonNegative | src/hooks/useCart.js:118-123 | with non-negative quantities the total is never negative |
| CartStore.Total | src/hooks/useCart.js:118-123 | price times quantity summed over the lines whose product resolves; stated by TotalIgnoresUnresolved and TotalNonNegative |
| CartStore.SetQuantity | src/hooks/useCart.js:92-98 | same length and product ids; the product's lines get the new quantity, all other lines are unchanged |
| CartStore.RemoveLines | src/hooks/useCart.js:76 | no line of the product remains, every other line is kept in order, and a cart without the product is unchanged; RemoveLinesCounts states how often each line is kept |
| CartStore.RemoveLinesCounts | src/hooks/useCart.js:76 | `.filter` keeps every line of another product exactly as often as it occurs |
| CartStore.RequestedQuantity | src/hooks/useCart.js:48-63 | the quantity checked against stock is the existing quantity (0 when absent) plus the added quantity |
| CartStore.AddLine | src/hooks/useCart.js:47-70 | a refused request keeps the lines; an accepted one either raises the existing line to the sum, leaving the rest unchanged, or appends a new line at the end |
| CartStore.UpdatedLines | src/hooks/useCart.js:80-99 | below 1 removes the product's lines; above the stock of a known product changes nothing; otherwise sets the quantity |
| CartStore.SetQuantityUnique | src/hooks/useCart.js:92-98 | setting a quantity keeps one line per product |
| CartStore.AddLineUnique | src/hooks/useCart.js:47-70 | adding keeps one line per product |
| CartStore.OperationsKeepLinesUnique | src/hooks/useCart.js:41-99 | add, remove and update all keep at most one line per product |
| CartStore.SetQuantityTotalItems | src/hooks/useCart.js:92-98 | the item count changes by the new quantity minus the old one, or not at all when the product has no line |
| CartStore.RemoveLinesTotalItems | src/hooks/useCart.js:75-78 | removing a product takes exactly its quantity off the item count |
| CartStore.AddLineTotalItems | src/hooks/useCart.js:47-72 | an accepted add raises the item count by exactly the added quantity; a refused one leaves it unchanged |
| CartStore.AddLineWithinStock | src/hooks/useCart.js:47-70 | adding a positive quantity of the catalog's own record keeps every quantity within [1, stockCount] |
| CartStore.UpdatedLinesWithinStock | src/hooks/useCart.js:80-99 | `updateQuantity` keeps every quantity within [1, stockCount] |
| CartStore.UpdateBelowOneRemoves | src/hooks/useCart.js:81-84 | `updateQuantity` with a quantity below 1 is `removeItem` |
| CartStore.UpdatedLinesNeverInserts | src/hooks/useCart.js:92-98 | an update never creates a line, and with a quantity of at least 1 never drops one |
| CartStore.Cart.constructor | src/hooks/useCart.js:6-7 | an empty cart over the loaded catalog |
| CartStore.Cart.AddItem | src/hooks/useCart.js:41-73 | false with "not available" and no change for a missing or out-of-stock product; otherwise true; the lines become `AddLine`'s, with a stock toast when refused; lines stay unique |
| CartStore.Cart.RemoveItem | src/hooks/useCart.js:75-78 | the lines become `RemoveLines`'s, the toast is "removed", and lines stay unique |
| CartStore.Cart.UpdateQuantity | src/hooks/useCart.js:80-99 | the lines become `UpdatedLines`'s; the toast is removal, stock refusal or none, as in the source; uniqueness and stock bounds are preserved |
| CartStore.Cart.ClearCart | src/hooks/useCart.js:101-103 | no lines remain and the catalog is unchanged |
| CartLineView.HandleQuantityChange | src/components/molecules/CartItem.jsx:17-23 | remove exactly when below 1, forward the quantity unchanged exactly when within [1, stockCount], ignore exactly when above the stock |
| CartLineView.Dispatch | src/components/molecules/CartItem.jsx:17-23 | the cart call the line's decision makes; QuantityChangeAgreesWithCart ties it to the cart |
| CartLineView.QuantityChangeAgreesWithCart | src/components/molecules/CartItem.jsx:17-23 | a forwarded quantity is never refused by the cart, and every request keeps the cart within stock |
| CartLineView.LineSubtotal | src/components/molecules/CartItem.jsx:32 | the subtotal is non-negative, and at least the unit price for a quantity of at least 1 |
| CartLineView.IncrementMatchesMaxNote | src/components/molecules/CartItem.jsx:101-117 | outside the removal animation, "+" is disabled exactly when "Max quantity reached" shows, and an enabled "+" forwards quantity + 1 |
| CartLineView.DecrementFromOneRemoves | src/components/molecules/CartItem.jsx:92 | "-" on a line holding one item removes the line |
| CartLineView.SubtotalsMakeTotal | src/components/molecules/CartItem.jsx:32 | the rendered lines' subtotals add up to the cart's `getTotal` |
| Pricing.Shipping | src/components/pages/Cart.jsx:36 | free exactly when the subtotal is above 50, otherwise 9.99 |
| Pricing.Tax | src/components/pages/Cart.jsx:37 | for a non-negative subtotal the tax lies between 0 and the subtotal |
| Pricing.GrandTotal | src/components/pages/Cart.jsx:35-38 | 1.08 times the subtotal plus the shipping, never below the subtotal |
| Pricing.HintAmount | src/components/pages/Cart.jsx:154-161 | while the hint shows, the amount is positive and brings the subtotal to exactly 50 |
| Pricing.HintBelowThreshold | src/components/pages/Cart.jsx:154 | the hint shows exactly below 50; at exactly 50 there is neither free shipping nor a hint |
| Pricing.ShowFreeShippingHint | src/components/pages/Cart.jsx:154 | the hint condition; HintBelowThreshold states when it holds |
| Pricing.HintAmountNotEnough | src/components/pages/Cart.jsx:154-161 | adding the suggested amount still pays shipping |
| Pricing.TotalDropsAcrossThreshold | src/components/pages/Cart.jsx:35-38 | for a subtotal at or below 50 and one above it, the smaller cart costs more in total exactly when the gap, taxed at 8%, is under the 9.99 fee; so a 49.99 cart costs more than a 50.01 cart |
| Pricing.CartPage | src/components/pages/Cart.jsx:35-57 | the empty state exactly for an empty cart; otherwise the resolved lines, the item count, the subtotal with its shipping, tax and total, and a hint exactly below 50 that names the amount still missing |
| Pricing.SummaryMatchesLines | src/components/pages/Cart.jsx:84-127 | the summary's subtotal is the sum of the rendered lines' subtotals |
| ProductPage.Savings | src/components/pages/ProductDetail.jsx:101-106 | positive exactly when discounted, and then price plus savings is the original price |
| ProductPage.Round | src/components/pages/ProductDetail.jsx:103 | `Math.round`: the integer within half a unit, halves going up |
| ProductPage.DiscountPercentage | src/components/pages/ProductDetail.jsx:101-104 | between 0 and 100, 0 without a discount, otherwise the discount share rounded to the nearest percent |
| ProductPage.HasDiscount | src/components/pages/ProductDetail.jsx:101 | an original price above the price; DiscountPercentage states what it decides |
| ProductPage.GuardAgainstCart | src/components/pages/ProductDetail.jsx:49-59 | an enabled "Add to Cart" always gets past the handlers' guard, and so does an out-of-stock product with a stock count left |
| ProductPage.AddGuardPasses | src/components/pages/ProductDetail.jsx:49-59 | the handlers' guard: a product is there, and it is in stock or has a stock count above 0; GuardAgainstCart relates it to the button |
| ProductPage.ProductDetail.constructor | src/components/pages/ProductDetail.jsx:18-22 | the loaded product with quantity 1 |
| ProductPage.ProductDetail.Decrement | src/components/pages/ProductDetail.jsx:244 | `max(1, quantity - 1)`, keeping the quantity in range |
| ProductPage.ProductDetail.Increment | src/components/pages/ProductDetail.jsx:252-259 | no change while disabled, otherwise one more and never above the stock |
| ProductPage.ProductDetail.HandleAddToCart | src/components/pages/ProductDetail.jsx:49-53 | past the guard, the cart's `addItem` with the chosen quantity, success reported whatever the cart decided, and the cart's toast passed on (none when accepted, the stock count when refused, "not available" out of stock); no change otherwise |
| ProductPage.ProductDetail.HandleBuyNow | src/components/pages/ProductDetail.jsx:55-59 | the same guard and `addItem`, then to checkout exactly when the guard passes |
| ProductSort.ParseSortKey | src/components/organisms/ProductGrid.jsx:27-47 | "featured" exactly when the selector value is none of "price-low", "price-high", "rating", "newest" and "name" |
| ProductSort.SortKeyMeaning | src/components/organisms/ProductGrid.jsx:27-47 | each selector value orders as its label says: "price-low" by rising price, "price-high" by falling price, "rating" by falling rating, "newest" by falling id, "name" by title; anything else is "featured" |
| ProductSort.SortedByNameTitles | src/components/organisms/ProductGrid.jsx:41-42 | the "name" sort leaves every earlier title at or before every later one |
| ProductSort.TitleCompare | src/components/organisms/ProductGrid.jsx:42 | `localeCompare`'s answer is -1, 0 or 1 |
| ProductSort.TitleCompareAntisymmetric | src/components/organisms/ProductGrid.jsx:42 | the title comparison is antisymmetric, and zero only for equal titles |
| ProductSort.TitleCompareTransitive | src/components/organisms/ProductGrid.jsx:42 | the title comparison is transitive |
| ProductSort.PrecedesTransitive | src/components/organisms/ProductGrid.jsx:27-47 | every comparator's "comes before" is transitive |
| ProductSort.Precedes | src/components/organisms/ProductGrid.jsx:27-47 | the comparator returns a negative number; its meaning is stated by PrecedesTransitive and SortKeyMeaning |
| ProductSort.NotPrecedesTransitive | src/components/organisms/ProductGrid.jsx:27-47 | "need not come before" is transitive too, so every comparator is a strict weak order |
| ProductSort.SortedBy | src/components/organisms/ProductGrid.jsx:25-47 | the stable sort by a key keeps the number of products; what it means is stated by the three lemmas that follow |
| ProductSort.SortedByPermutes | src/components/organisms/ProductGrid.jsx:25-47 | every key's sort returns a permutation of its input |
| ProductSort.SortedByOrdered | src/components/organisms/ProductGrid.jsx:25-47 | every key's sort returns its input ordered by that key |
| ProductSort.SortedByStable | src/components/organisms/ProductGrid.jsx:25-47 | products with equal keys keep their input order |
| ProductSort.OrderedPermutationUnique | src/components/organisms/ProductGrid.jsx:25-47 | without ties, an ordered permutation is unique |
| ProductSort.PriceHighReversesPriceLow | src/components/organisms/ProductGrid.jsx:28-33 | without equal prices, "price-high" is exactly the reverse of "price-low" |
| ProductSort.SortInPlace | src/components/organisms/ProductGrid.jsx:25-47 | the array ends up holding the stable sort of its old contents |
| ProductSort.ShiftRight | src/components/organisms/ProductGrid.jsx:25-47 | the sorted prefix's products that must follow the new product move one cell right, and the hole is where the stable insertion puts it |
| ProductSort.InsertAt | src/components/organisms/ProductGrid.jsx:25-47 | the prefix up to cell i becomes the stable insertion of cell i into the sorted cells before it; later cells are untouched |
| ProductSort.SortProducts | src/components/organisms/ProductGrid.jsx:24-50 | a sorted copy of the products for the selected key; "featured" keeps the input order |
| Products.FindProduct | src/services/api/productService.js:18 | the first product with that id, or none exactly when no product has it |
| Products.WhereMeaning | src/services/api/productService.js:24 | a `.filter` keeps, in order, exactly the products that pass, each as often as it occurs |
| Products.Where | src/services/api/productService.js:24 | `.filter` on the product list; WhereMeaning states what it keeps |
| Products.MatchesQueryIgnoresCase | src/services/api/productService.js:29-33 | the search test gives the same answer for a query and its lower-cased form |
| Products.MatchesQuery | src/services/api/productService.js:29-33 | the search test on name, description and category; MatchesQueryIgnoresCase and SearchProperties state it |
| Products.CategoriesOf | src/services/api/productService.js:47 | one category per product, in product order |
| Products.DistinctCategories | src/services/api/productService.js:47 | distinct, covering every product's category and no other, in order of first occurrence |
| ProductStore.InCategory | src/services/api/productService.js:22-25 | exactly the products of that category, in stored order, each as often as stored |
| ProductStore.SearchResults | src/services/api/productService.js:27-35 | exactly the products whose title, description or category contains the query, ignoring case, in stored order |
| ProductStore.CategoryListed | src/services/api/productService.js:22-48 | a category has products exactly when the category list names it |
| ProductStore.SearchProperties | src/services/api/productService.js:27-35 | the search ignores the query's case, and the empty query finds every product |
| ProductStore.TopRated | src/services/api/productService.js:37-43 | a prefix of the rating sort, of length `min(limit, count)` for a non-negative limit |
| ProductStore.TopRatedMeaning | src/services/api/productService.js:37-43 | non-increasing ratings, taken from the products, each rated at least as high as every product left out |
| ProductStore.SortedByOfOrdered | src/services/api/productService.js:37-43 | sorting a list already in order changes nothing |
| ProductStore.ProductService.constructor | src/services/api/productService.js:7-9 | a fresh table holding the seed products |
| ProductStore.ProductService.GetAll | src/services/api/productService.js:11-14 | the table's contents |
| ProductStore.ProductService.GetById | src/services/api/productService.js:16-20 | the first product with that id, or none exactly when no product has it |
| ProductStore.ProductService.GetByCategory | src/services/api/productService.js:22-25 | `InCategory` of the table |
| ProductStore.ProductService.SearchProducts | src/services/api/productService.js:27-35 | `SearchResults` of the table |
| ProductStore.ProductService.GetFeaturedProducts | src/services/api/productService.js:37-43 | the table is left sorted by rating, and the result is its first `limit` products (8 by default) |
| ProductStore.ProductService.GetCategories | src/services/api/productService.js:45-48 | the distinct categories of the table |
| ProductStore.FeaturedQueryReordersTable | src/services/api/productService.js:37-43 | after a featured query, repeating it changes neither the table nor the result, and category and search results come in rating order |
| HomePage.LoadHomeData | src/components/pages/Home.jsx:22-46 | the featured products are the top eight by rating; the categories are those of the list after its in-place sort |
| HomePage.FeaturedMeaning | src/components/pages/Home.jsx:31-34 | at most eight, exactly eight when at least eight were fetched, taken from the fetched list, with non-increasing ratings |
| HomePage.CategoriesMeaning | src/components/pages/Home.jsx:36-38 | distinct, covering every fetched category, and the same set as without the sort |
| HomePage.ShownCategories | src/components/pages/Home.jsx:150 | the first five categories, still distinct |
| OrderStore.MaxId | src/services/api/orderService.js:25 | `Math.max(...ids, 0)`: at least 0, at least every id, and an id when positive |
| OrderStore.NewId | src/services/api/orderService.js:25 | at least 1 and above every id in the table |
| OrderStore.IndexOfId | src/services/api/orderService.js:39 | the first position holding that id, or -1 exactly when there is none |
| OrderStore.FindOrder | src/services/api/orderService.js:18 | the record at the first matching position, or none exactly when no record matches |
| OrderStore.NewOrder | src/services/api/orderService.js:25-31 | the new id unless the input carries one; the input's fields; the given date and tracking number |
| OrderStore.CreateKeepsUnique | src/services/api/orderService.js:22-35 | creating without an id of its own keeps ids unique |
| OrderStore.CreateWithTakenIdDuplicates | src/services/api/orderService.js:26-28 | an input carrying an existing id creates a duplicate id |
| OrderStore.OrderService.constructor | src/services/api/orderService.js:7-9 | the table holds the seed orders |
| OrderStore.OrderService.GetAll | src/services/api/orderService.js:11-14 | the table's contents |
| OrderStore.OrderService.GetById | src/services/api/orderService.js:16-20 | the first order with that id, or none exactly when there is none |
| OrderStore.OrderService.Create | src/services/api/orderService.js:22-35 | exactly one record, `NewOrder`'s, is appended and returned; ids stay unique for an input without an id |
| OrderStore.OrderService.UpdateStatus | src/services/api/orderService.js:37-48 | only the first matching record's status changes, and that record is returned; with no match, null and no change; length and ids are kept |
| OrderStore.OrderService.Delete | src/services/api/orderService.js:50-58 | the first matching record is removed and returned, the others keep their order; with no match, null and no change; ids stay unique |
| OrderStore.DeleteKeepsUnique | src/services/api/orderService.js:50-58 | removing a record keeps ids unique |
| OrderStore.DeleteRemovesThatId | src/services/api/orderService.js:50-58 | with unique ids, the deleted id is no longer found |
| OrderStore.DeleteKeepsOtherIds | src/services/api/orderService.js:50-58 | every other id is exactly as findable as before |
| Catalog.Select | src/components/pages/ProductCatalog.jsx:68-105 | the reference selection: in order, exactly the products that pass every active test, and all of them when all pass |
| Catalog.ApplyFiltersAppend | src/components/pages/ProductCatalog.jsx:68-105 | the filter chain distributes over concatenation |
| Catalog.ApplyFiltersSingle | src/components/pages/ProductCatalog.jsx:68-105 | the chain keeps one product exactly when it passes every active test |
| Catalog.ApplyFiltersIsSelect | src/components/pages/ProductCatalog.jsx:68-105 | the chain of `.filter` calls is the conjunction of the active tests |
| Catalog.ApplyFilters | src/components/pages/ProductCatalog.jsx:68-105 | the filter chain; ApplyFiltersIsSelect, ApplyFiltersAppend and ApplyFiltersIdempotent state it |
| Catalog.ApplyFiltersIdempotent | src/components/pages/ProductCatalog.jsx:68-105 | filtering the result again with the same filters changes nothing |
| Catalog.DefaultFiltersCapPrice | src/components/pages/ProductCatalog.jsx:78-82 | under the default filters a product is shown exactly when its price is at most 1000 |
| Catalog.SearchIgnoresCase | src/components/pages/ProductCatalog.jsx:94-102 | lower-casing the query does not change the result |
| Catalog.Merge | src/components/pages/ProductCatalog.jsx:108 | each field the update carries replaces the old one; the others are kept |
| Catalog.MergeFull | src/components/pages/ProductCatalog.jsx:108 | an update carrying every field replaces the filters entirely |
| Catalog.UrlOf | src/components/pages/ProductCatalog.jsx:110-128 | only the five known keys; each written exactly when the update carries the field away from its default; only the first category; numbers in decimal |
| Catalog.FromUrl | src/components/pages/ProductCatalog.jsx:29-47 | each field is read back from its parameter, with the default for a missing or empty one; the in-stock flag is kept |
| Catalog.NumberRoundTrip | src/components/pages/ProductCatalog.jsx:118-125 | a bound or rating written with `toString` and read with `parseInt`, or absent and defaulted, comes back unchanged |
| Catalog.UrlNumbersRoundTrip | src/components/pages/ProductCatalog.jsx:41-45 | the price range and minimum rating survive the URL |
| Catalog.UrlTextRoundTrip | src/components/pages/ProductCatalog.jsx:39-40 | a single category and the search query survive the URL |
| Catalog.UrlRoundTrip | src/components/pages/ProductCatalog.jsx:29-128 | filters with at most one non-empty category, bounds within 0 to 1000 and a non-negative rating come back from the URL unchanged, except the in-stock flag, which keeps its previous value |
| Catalog.UnsentFieldsReset | src/components/pages/ProductCatalog.jsx:107-128 | a field the update does not carry is not written, so the URL effect resets it to its default |
| Catalog.RemoveFilterResets | src/components/pages/ProductCatalog.jsx:131-148 | removing a chip resets exactly its own filter; a category chip drops every copy of the category and keeps the rest in order, each as often as before |
| Catalog.RemoveUpdate | src/components/pages/ProductCatalog.jsx:131-148 | the update a chip's removal sends; RemoveFilterResets states what it resets |
| Catalog.Settle | src/components/pages/ProductCatalog.jsx:29-47 | the merge, then the URL effect when the written parameters differ; `CatalogPage.Interact` ends in exactly this state |
| Catalog.ClearAllRestoresDefaults | src/components/pages/ProductCatalog.jsx:150-158 | clearing restores every default and writes an empty URL, whose effect keeps the defaults |
| Catalog.CatalogPage.constructor | src/components/pages/ProductCatalog.jsx:17-47 | the page opens with the filters read from its URL |
| Catalog.CatalogPage.UpdateFilters | src/components/pages/ProductCatalog.jsx:107-129 | the filters become the merge, and the URL holds the parameters of the update alone |
| Catalog.CatalogPage.SyncFromUrl | src/components/pages/ProductCatalog.jsx:29-47 | the filters become `FromUrl` of the current filters and URL |
| Catalog.CatalogPage.Interact | src/components/pages/ProductCatalog.jsx:29-129 | the handler, then the URL effect when the parameters changed: the URL becomes the update's parameters and the filters end as `Settle` says |
| Catalog.CatalogPage.RemoveFilter | src/components/pages/ProductCatalog.jsx:131-148 | `updateFilters` with the chip's reset update |
| Catalog.CatalogPage.ClearAllFilters | src/components/pages/ProductCatalog.jsx:150-158 | the default filters and an empty URL |
| FilterPanel.ToggleCategory | src/components/molecules/FilterSection.jsx:56-62 | checking appends the category at the end; unchecking drops every copy and keeps the rest in order, each as often as before; the box then shows the new state |
| FilterPanel.CheckThenUncheck | src/components/molecules/FilterSection.jsx:56-62 | checking a clear box and clearing it again restores the selection |
| FilterPanel.PriceSliders.constructor | src/components/molecules/FilterSection.jsx:74-75 | the local range starts as the given range |
| FilterPanel.PriceSliders.HandleRangeChange | src/components/molecules/FilterSection.jsx:77-82 | one bound becomes `parseInt` of the slider value; the copy is kept and reported |
| FilterPanel.SlidersCross | src/components/molecules/FilterSection.jsx:77-113 | the sliders can report a lower bound above the upper bound |
| FilterPanel.RatingOptionsMeaning | src/components/molecules/FilterSection.jsx:139-159 | only "All ratings" switches the rating test off; at most one choice shows selected, exactly one when the minimum is 0-4 |
| FilterPanel.Chips | src/components/molecules/FilterSection.jsx:169-234 | no chip exactly when no filter is active; one chip per category; a price, rating or stock chip exactly when that filter is active |
| FilterPanel.HasFilters | src/components/molecules/FilterSection.jsx:170-174 | any filter active; Chips and SearchIsNotAFilter state its meaning |
| FilterPanel.ChipShown | src/components/molecules/FilterSection.jsx:191-229 | the chip for that filter is on screen |
| FilterPanel.RemoveChip | src/components/pages/ProductCatalog.jsx:131-148 | a chip's remove button through `updateFilters` and the URL effect; RemoveChipThroughPage states its effect |
| FilterPanel.RemoveChipThroughPage | src/components/pages/ProductCatalog.jsx:131-148 | the removed chip is gone and fewer chips remain; the search is reset to "" exactly when the removal changes the URL, kept otherwise |
| FilterPanel.ClearChips | src/components/molecules/FilterSection.jsx:191-229 | removing the first shown chip until none is left; RemovingChipsClearsFilters states the result |
| FilterPanel.SearchIsNotAFilter | src/components/molecules/FilterSection.jsx:170-176 | the search alone never counts as a filter, and clearing leaves none |
| FilterPanel.RemovingChipsClearsFilters | src/components/molecules/FilterSection.jsx:191-229 | removing the chips one by one through the page (`removeFilter`, `updateFilters`, the URL effect) leaves no filter active; the search either survives or, once a removal changes the URL, is reset to "" |
| Checkout.NoErrorsIffValid | src/components/pages/Checkout.jsx:55-100 | a step's error map is empty exactly when the step is valid; other steps check nothing |
| Checkout.StepErrors | src/components/pages/Checkout.jsx:55-100 | the error map `validateStep` builds; NoErrorsIffValid, ShippingByField and PaymentByField state it |
| Checkout.FieldError | src/components/pages/Checkout.jsx:55-100 | one field's message; NoFieldErrorIffValid states it |
| Checkout.StepValid | src/components/pages/Checkout.jsx:55-100 | every field of the step passes; NoErrorsIffValid ties it to the error map |
| Checkout.NoFieldErrorIffValid | src/components/pages/Checkout.jsx:55-96 | no field has a message exactly when every required field is filled and the email, phone, card and CVV checks pass |
| Checkout.ShippingByField | src/components/pages/Checkout.jsx:58-78 | the required checks, then the email and phone patterns overwriting them, give the step's error map |
| Checkout.PaymentByField | src/components/pages/Checkout.jsx:80-96 | the required checks, then the card length and CVV checks overwriting them, give the step's error map |
| Checkout.ShippingErrors | src/components/pages/Checkout.jsx:58-78 | the shipping checks made in order give the step's error map |
| Checkout.PaymentErrors | src/components/pages/Checkout.jsx:80-96 | the payment checks made in order give the step's error map |
| Checkout.OrderData | src/components/pages/Checkout.jsx:127-150 | the order carries the cart's lines, their subtotal with its shipping, tax and total, the shipping address as typed, a credit-card payment with the last four characters of the number and the cardholder name, and the notes |
| Checkout.LastFour | src/components/pages/Checkout.jsx:146 | `slice(-4)`: the last four characters, or all of a shorter string |
| Checkout.OrderKeepsOnlyLastFour | src/components/pages/Checkout.jsx:144-148 | once payment is valid, the order keeps four characters of the card number, never the number itself |
| Checkout.OrderMatchesCartPage | src/components/pages/Checkout.jsx:49-52 | checkout charges the subtotal, shipping, tax and total the cart page shows |
| Checkout.InputKeepsFormatted | src/components/pages/Checkout.jsx:293-367 | storing what an input hands over keeps every field formatted |
| Checkout.InputValue | src/components/pages/Checkout.jsx:293-367 | what each input hands over; InputKeepsFormatted states it |
| Checkout.EmptyFormatted | src/components/pages/Checkout.jsx:17-37 | an empty field counts as formatted |
| Checkout.CheckoutWizard.constructor | src/components/pages/Checkout.jsx:14-39 | step 1, the initial form, no errors, every field formatted |
| Checkout.CheckoutWizard.ValidateStep | src/components/pages/Checkout.jsx:55-100 | the errors become the step's error map, and the result is true exactly when the step is valid |
| Checkout.CheckoutWizard.HandleInputChange | src/components/pages/Checkout.jsx:102-109 | the field takes the value, and a field whose message text is non-empty has it blanked; every other message stays |
| Checkout.CheckoutWizard.Type | src/components/pages/Checkout.jsx:293-367 | the input's formatter, then `handleInputChange`: the field takes the formatted value, the reformatted fields stay formatted, and a pending error on that field is cleared while the other errors stay |
| Checkout.CheckoutWizard.HandleNext | src/components/pages/Checkout.jsx:111-115 | moves one step on exactly when the current step validates, and stays within steps 1-3 |
| Checkout.CheckoutWizard.HandlePrevious | src/components/pages/Checkout.jsx:117-119 | one step back, never below 1 |
| Checkout.CheckoutWizard.HandleSubmitOrder | src/components/pages/Checkout.jsx:121-168 | validates step 2 only; an order is placed exactly when it passes and `create` succeeds; only then is the cart emptied and one record appended |
| CheckoutFormat.Substring | src/components/pages/Checkout.jsx:196 | `substring` with both ends clamped to the length |
| CheckoutFormat.ChunksFromSpec | src/components/pages/Checkout.jsx:182-184 | the groups concatenate to the match, number ceil(length / 4), and hold 1 to 4 characters each |
| CheckoutFormat.FormatCardNumber | src/components/pages/Checkout.jsx:176-191 | the loop's groups joined by spaces, or the digits when there is no group |
| CheckoutFormat.CardFormatSpec | src/components/pages/Checkout.jsx:176-191 | fewer than four digits come back as they are; otherwise the first sixteen digits at most, four to a group, with a space at exactly every fifth position and none after the last group (the length is the digits plus one less than the groups); at most 19 characters |
| CheckoutFormat.CardFormatIdempotent | src/components/pages/Checkout.jsx:176-191 | formatting a formatted card number changes nothing |
| CheckoutFormat.CardFormatValid | src/components/pages/Checkout.jsx:176-191 | a formatted number passes the 16-character check exactly when at least sixteen digits were typed |
| CheckoutFormat.CardFormat | src/components/pages/Checkout.jsx:176-191 | the card formatter; CardFormatSpec, CardFormatIdempotent and CardFormatValid state it |
| CheckoutFormat.CardNumberValid | src/components/pages/Checkout.jsx:88 | sixteen characters once whitespace is removed; CardFormatValid states when a formatted number passes |
| CheckoutFormat.CvvValid | src/components/pages/Checkout.jsx:93 | three or four characters; PaymentByField places it among the payment checks |
| CheckoutFormat.ExpiryFormat | src/components/pages/Checkout.jsx:193-199 | at most five characters |
| CheckoutFormat.ExpiryFormatSpec | src/components/pages/Checkout.jsx:193-199 | the first four digits at most; under two digits the bare digits; with two or more, the first two, a slash, then digits only |
| CheckoutFormat.ExpiryFormatIdempotent | src/components/pages/Checkout.jsx:193-199 | formatting a formatted expiry date changes nothing |
| CheckoutFormat.PhoneFormat | src/components/pages/Checkout.jsx:201-209 | at most 14 characters, whose digits are the first ten typed; under three digits the bare digits, otherwise "(" and the first three, then ") " and digits only, with the next three and "-" once six are typed |
| CheckoutFormat.PhoneFormatIdempotent | src/components/pages/Checkout.jsx:201-209 | formatting a formatted phone number changes nothing |
| CheckoutFormat.EmailExamples | src/components/pages/Checkout.jsx:70-72 | the unanchored email pattern accepts "a@b.c" inside other text and rejects "a@b", "@b.c" and "a@.c" |
| CheckoutFormat.EmailUnanchored | src/components/pages/Checkout.jsx:70-72 | the email test is unanchored: any text around an accepted address is accepted; an accepted text has at least five characters and an "@" after a non-space character with a "." later |
| CheckoutFormat.EmailShaped | src/components/pages/Checkout.jsx:70 | the email test; EmailExamples and EmailUnanchored state it |
| CheckoutFormat.PhoneValidIff | src/components/pages/Checkout.jsx:75-77 | the phone check passes exactly when the number has ten digits, whatever else it holds |
| CheckoutFormat.PhoneValid | src/components/pages/Checkout.jsx:75 | the phone check; PhoneValidIff states it |
| CheckoutFormat.PhoneReformat | src/components/pages/Checkout.jsx:75 | the ten digits in the pattern's shape; PhoneValidIff uses it |
| CheckoutFormat.PhonePatternOk | src/components/pages/Checkout.jsx:75 | the phone pattern; PhoneValidIff states it |
| CheckoutFormat.PhoneFormatValid | src/components/pages/Checkout.jsx:75-77 | a formatted phone number passes exactly when at least ten digits were typed |
| Common.SliceTo | src/services/api/productService.js:41 | `slice(0, end)`: a prefix of length `min(end, length)`, with a negative end counting from the back |
| Common.Dedup | src/services/api/productService.js:47 | `[...new Set(s)]`: distinct, same elements, in order of first occurrence |
| Common.Without | src/components/molecules/FilterSection.jsx:61 | every copy of the value dropped, the rest kept in order; WithoutCounts states how often each value is kept |
| Common.WithoutCounts | src/components/molecules/FilterSection.jsx:61 | `.filter` keeps every other value exactly as often as it occurs and no copy of the dropped one, so the length falls by the dropped copies |
| Text.LowerChar | src/services/api/productService.js:29 | an upper-case ASCII letter becomes its lower-case letter (code point plus 32); any other character is kept |
| Text.ToLower | src/services/api/productService.js:29 | same length, every upper-case letter becomes its lower-case letter (code point plus 32), other characters kept |
| Text.ToLowerIdempotent | src/services/api/productService.js:29 | lower-casing twice is lower-casing once |
| Text.Includes | src/services/api/productService.js:31-33 | true exactly when the needle occurs at some position |
| Text.DigitsOnly | src/components/pages/Checkout.jsx:202 | only digits, no longer than the input, and a digit string unchanged |
| Text.StripSpaces | src/components/pages/Checkout.jsx:88 | no whitespace left, and a string without whitespace unchanged |
| Text.ParseInt | src/components/pages/ProductCatalog.jsx:42-45 | NaN exactly when no digit follows the whitespace, sign and radix prefix |
| Text.NatToString | src/components/pages/ProductCatalog.jsx:119 | decimal digits without a leading zero |
| Text.IntToString | src/components/pages/ProductCatalog.jsx:119 | `n.toString()` is never empty; `ParseIntToString` reads it back as `n` |
| Text.ParseIntToString | src/components/pages/ProductCatalog.jsx:118-126 | `parseInt(n.toString())` is `n` for every integer |
| Text.ParseIntRejectsNonNumeric | src/components/pages/ProductCatalog.jsx:42-45 | empty text, or text whose first visible character is neither a sign nor a digit, parses to NaN |

## Left out

- Persistence of the cart to `localStorage`, and reading it back, is left out: it is browser I/O. The model starts from an empty cart.
- Every page calls `useCart()` for its own copy of the cart, kept in step only through `localStorage`. The model uses one shared `Cart`.
- The cart hook fetches its catalog asynchronously. The catalog is a constructor parameter of `Cart` instead.
- The product page loads its product by `parseInt` of the route id. The loaded product is a constructor parameter of `ProductDetail` instead.
- The catalog page loads its products the same way. The catalog is a constructor parameter of `CatalogPage` instead.
- Network delays, promises and fetch failures are left out, together with the loading and error views of the home, catalog and product pages.
- The home page's `categoryImages` fallback is presentation only.
- The order date (`new Date()`) and the tracking number (`Math.random`) are parameters of `Create`.
- A failing `create` is the parameter `createSucceeds` of `HandleSubmitOrder`.
- Checkout.CheckoutWizard.HandleSubmitOrder: the `isSubmitting` flag, the navigation and the success and failure toasts are left out.
- Toast texts, navigation, `window.confirm`, animations and the 200/300 ms `setTimeout` delays are left out. Where a toast is part of an operation's outcome, it is the `Toast` value the operation returns.
- The `{...p}` copies that the services return are left out: values have no identity here.
- Money is `real`, not a binary floating-point number, so `toFixed` rounding and floating-point error are left out. Ids, quantities and stock counts are unbounded integers rather than doubles.
- Text.ToLower: lowers ASCII letters only, not the full Unicode mapping of `toLowerCase`.
- ProductSort.TitleCompare: `localeCompare` is modelled as code-point lexicographic order, not a locale collation.
- Text.ParseInt: the loss of precision of very long digit strings is left out.
- Catalog.CatalogPage.RemoveFilter: `removeFilter` with an unknown kind does nothing in the source. The model's `FilterKind` has only the four known kinds, so that case does not arise.
- Catalog.Settle: the URL is the parameter map, so "the URL changed" compares maps. The router re-runs the effect when the `location.search` string changes. The two agree on every URL the page writes itself, because its keys go in a fixed order. They differ for a URL opened with the keys in another order, or with a repeated key: the source re-runs the effect there and the model does not. Query-string order and repeated keys are left out.
- React runs effects after rendering, and `setFilters` updaters run later. The model treats each handler and each effect as one atomic step, and `Interact` runs them in order.
- The price sliders keep the range they were given when first shown. Later changes to the filters do not reach `localRange`, in the source as in the model.
- The browser's `maxLength` limits on the card, expiry and CVV inputs (19, 5 and 4) are left out. The card and expiry formatters stay within 19 and 5 characters anyway, but the model's CVV may grow longer.
- The checkout page's redirect to the cart when the cart is empty is navigation, and is left out.
- The country field has no input on the page and keeps "United States", unless a caller changes it through `HandleInputChange`.
- ProductSort.SortedBy: its own contract gives only the length. The permutation, the order and the stability are stated by `SortedByPermutes`, `SortedByOrdered` and `SortedByStable`.
- ProductSort.TitleCompare: its own contract gives only the range of the answer. Antisymmetry and transitivity are stated by `TitleCompareAntisymmetric` and `TitleCompareTransitive`.
- Pricing.Tax: states only that the tax lies between 0 and the subtotal. The exact 8 % is stated by `GrandTotal`.
- Checkout.ShippingErrors: the eight required-field checks each set their own key, so they are taken as one map comprehension (`RequiredErrors`) rather than eight statements.
- Checkout.PaymentErrors: the four required-field checks are likewise taken as one map comprehension.
- The messages are the `Message` datatype. `MessageText` gives the source's wording, but no contract states it.
- `CartSidebar`, `ProductCard`, `OrderConfirmation` and the purely presentational components are not part of this model.
