/**
  The catalog page's filters: a conjunction of a category set, an inclusive
  price range, a minimum rating, an in-stock flag and a text search, applied
  to the loaded products; and the filters' round trip through the URL's
  query parameters.

  Bounds and ratings that come from the URL or a slider pass through
  `parseInt`, so they are `JsInt`s that may be NaN; every comparison with
  NaN is false, as in JavaScript.
 */
module Catalog {
  import opened Common
  import opened Text
  import opened Products

  datatype PriceRange = PriceRange(lo: JsInt, hi: JsInt)

  datatype Filters = Filters(
    categories: seq<string>,
    priceRange: PriceRange,
    minRating: JsInt,
    inStockOnly: bool,
    searchQuery: string)

  const DefaultRange := PriceRange(Num(0), Num(1000))
  const DefaultFilters := Filters([], DefaultRange, Num(0), false, "")

  /** `n > 0`. */
  predicate Positive(n: JsInt) {
    n.Num? && n.value > 0
  }

  /** `n < 1000`, the top of the price slider. */
  predicate BelowCap(n: JsInt) {
    n.Num? && n.value < 1000
  }

  /** `x >= n`. */
  predicate AtLeast(x: real, n: JsInt) {
    n.Num? && x >= n.value as real
  }

  /** `x <= n`. */
  predicate AtMost(x: real, n: JsInt) {
    n.Num? && x <= n.value as real
  }

  /** The five `.filter` calls of `applyFilters`, in order. */
  datatype Stage = ByCategory | ByPrice | ByRating | ByStock | BySearch

  /** Whether the stage runs at all; the price stage always does. */
  predicate Active(st: Stage, f: Filters) {
    match st
    case ByCategory => |f.categories| > 0
    case ByPrice => true
    case ByRating => Positive(f.minRating)
    case ByStock => f.inStockOnly
    case BySearch => f.searchQuery != ""
  }

  /** The test a running stage applies to one product. */
  predicate Passes(p: Product, st: Stage, f: Filters) {
    match st
    case ByCategory => p.category in f.categories
    case ByPrice => AtLeast(p.price, f.priceRange.lo) && AtMost(p.price, f.priceRange.hi)
    case ByRating => AtLeast(p.rating, f.minRating)
    case ByStock => p.inStock
    case BySearch => MatchesQuery(p, f.searchQuery)
  }

  /** One step of the chain: `filtered.filter(...)` when the stage is active. */
  function RunStage(s: seq<Product>, st: Stage, f: Filters): seq<Product> {
    if Active(st, f) then Where(s, p => Passes(p, st, f)) else s
  }

  /** `applyFilters`. */
  function ApplyFilters(products: seq<Product>, f: Filters): seq<Product> {
    var byCategory := RunStage(products, ByCategory, f);
    var byPrice := RunStage(byCategory, ByPrice, f);
    var byRating := RunStage(byPrice, ByRating, f);
    var byStock := RunStage(byRating, ByStock, f);
    RunStage(byStock, BySearch, f)
  }

  /** A product the filters admit: every active test holds. */
  predicate Matches(p: Product, f: Filters) {
    (|f.categories| > 0 ==> p.category in f.categories) &&
    AtLeast(p.price, f.priceRange.lo) && AtMost(p.price, f.priceRange.hi) &&
    (Positive(f.minRating) ==> p.rating >= f.minRating.value as real) &&
    (f.inStockOnly ==> p.inStock) &&
    (f.searchQuery != "" ==> MatchesQuery(p, f.searchQuery))
  }

  /** The reference selection: the matching products, in their order. */
  function Select(s: seq<Product>, f: Filters): (r: seq<Product>)
    ensures Subsequence(r, s)
    ensures forall p :: p in r <==> p in s && Matches(p, f)
    ensures (forall i :: 0 <= i < |s| ==> Matches(s[i], f)) ==> r == s
  {
    WhereMeaning(s, p => Matches(p, f));
    WhereAll(s, p => Matches(p, f));
    Where(s, p => Matches(p, f))
  }

  lemma RunStageAppend(a: seq<Product>, b: seq<Product>, st: Stage, f: Filters)
    ensures RunStage(a + b, st, f) == RunStage(a, st, f) + RunStage(b, st, f)
  {
    WhereAppend(a, b, p => Passes(p, st, f));
  }

  lemma RunStageSingle(x: Product, st: Stage, f: Filters)
    ensures RunStage([], st, f) == []
    ensures RunStage([x], st, f) == if !Active(st, f) || Passes(x, st, f) then [x] else []
  {
    assert [x][1..] == [];
  }

  /** The chain distributes over concatenation. */
  lemma ApplyFiltersAppend(a: seq<Product>, b: seq<Product>, f: Filters)
    ensures ApplyFilters(a + b, f) == ApplyFilters(a, f) + ApplyFilters(b, f)
  {
    var a1, b1 := RunStage(a, ByCategory, f), RunStage(b, ByCategory, f);
    RunStageAppend(a, b, ByCategory, f);
    var a2, b2 := RunStage(a1, ByPrice, f), RunStage(b1, ByPrice, f);
    RunStageAppend(a1, b1, ByPrice, f);
    var a3, b3 := RunStage(a2, ByRating, f), RunStage(b2, ByRating, f);
    RunStageAppend(a2, b2, ByRating, f);
    var a4, b4 := RunStage(a3, ByStock, f), RunStage(b3, ByStock, f);
    RunStageAppend(a3, b3, ByStock, f);
    RunStageAppend(a4, b4, BySearch, f);
  }

  /** On one product the chain keeps it exactly when it matches. */
  lemma ApplyFiltersSingle(x: Product, f: Filters)
    ensures ApplyFilters([x], f) == if Matches(x, f) then [x] else []
  {
    RunStageSingle(x, ByCategory, f);
    RunStageSingle(x, ByPrice, f);
    RunStageSingle(x, ByRating, f);
    RunStageSingle(x, ByStock, f);
    RunStageSingle(x, BySearch, f);
  }

  /** The chain of `.filter` calls selects exactly the matching products, in
      their order: the result is a subsequence of the input, every product in
      it passes every active test, and every product that does is kept. */
  lemma {:induction false} ApplyFiltersIsSelect(products: seq<Product>, f: Filters)
    ensures ApplyFilters(products, f) == Select(products, f)
  {
    if products == [] {
      RunStageSingle(Product(0, "", "", 0.0, None, "", 0.0, false, 0), ByCategory, f);
    } else {
      assert products == [products[0]] + products[1..];
      ApplyFiltersAppend([products[0]], products[1..], f);
      ApplyFiltersSingle(products[0], f);
      ApplyFiltersIsSelect(products[1..], f);
    }
  }

  /** Filtering the result again with the same filters changes nothing. */
  lemma ApplyFiltersIdempotent(products: seq<Product>, f: Filters)
    ensures ApplyFilters(ApplyFilters(products, f), f) == ApplyFilters(products, f)
  {
    ApplyFiltersIsSelect(products, f);
    ApplyFiltersIsSelect(Select(products, f), f);
  }

  /** Under the default filters a product is shown exactly when its price is
      at most 1000: the price range always applies. */
  lemma DefaultFiltersCapPrice(products: seq<Product>, p: Product)
    ensures p in ApplyFilters(products, DefaultFilters) <==> p in products && p.price <= 1000.0
  {
    ApplyFiltersIsSelect(products, DefaultFilters);
    assert Matches(p, DefaultFilters) <==> p.price <= 1000.0;
  }

  /** The search ignores the case of the query. */
  lemma SearchIgnoresCase(products: seq<Product>, f: Filters)
    ensures ApplyFilters(products, f.(searchQuery := ToLower(f.searchQuery))) == ApplyFilters(products, f)
  {
    var g := f.(searchQuery := ToLower(f.searchQuery));
    forall p ensures Matches(p, f) == Matches(p, g) {
      MatchesQueryIgnoresCase(p, f.searchQuery);
    }
    WhereAgree(products, p => Matches(p, f), p => Matches(p, g));
    ApplyFiltersIsSelect(products, f);
    ApplyFiltersIsSelect(products, g);
  }

  /** The object passed to `updateFilters`: the fields it carries. */
  datatype FilterUpdate = FilterUpdate(
    categories: Option<seq<string>>,
    priceRange: Option<PriceRange>,
    minRating: Option<JsInt>,
    inStockOnly: Option<bool>,
    searchQuery: Option<string>)

  const NoUpdate := FilterUpdate(None, None, None, None, None)

  /** An update carrying every field of `f`. */
  function FullUpdate(f: Filters): FilterUpdate {
    FilterUpdate(Some(f.categories), Some(f.priceRange), Some(f.minRating), Some(f.inStockOnly), Some(f.searchQuery))
  }

  /** `{...prev, ...newFilters}`: the carried fields replace the old ones. */
  function Merge(prev: Filters, u: FilterUpdate): (f: Filters)
    ensures f.categories == u.categories.GetOr(prev.categories)
    ensures f.priceRange == u.priceRange.GetOr(prev.priceRange)
    ensures f.minRating == u.minRating.GetOr(prev.minRating)
    ensures f.inStockOnly == u.inStockOnly.GetOr(prev.inStockOnly)
    ensures f.searchQuery == u.searchQuery.GetOr(prev.searchQuery)
  {
    Filters(u.categories.GetOr(prev.categories), u.priceRange.GetOr(prev.priceRange),
            u.minRating.GetOr(prev.minRating), u.inStockOnly.GetOr(prev.inStockOnly),
            u.searchQuery.GetOr(prev.searchQuery))
  }

  lemma MergeFull(prev: Filters, f: Filters)
    ensures Merge(prev, FullUpdate(f)) == f
  {
  }

  /** The query parameters of the page's URL. */
  type Params = map<string, string>

  /** The parameters `updateFilters` writes for an update: only what the update
      carries, only the first category, and only values away from the defaults;
      the in-stock flag is never written. */
  function UrlOf(u: FilterUpdate): (p: Params)
    ensures p.Keys <= ParamKeys
    ensures "category" in p <==> u.categories.Some? && |u.categories.value| > 0
    ensures "category" in p ==> p["category"] == u.categories.value[0]
    ensures "search" in p <==> u.searchQuery.Some? && u.searchQuery.value != ""
    ensures "search" in p ==> p["search"] == u.searchQuery.value
    ensures "minPrice" in p <==> u.priceRange.Some? && Positive(u.priceRange.value.lo)
    ensures "minPrice" in p ==> p["minPrice"] == IntToString(u.priceRange.value.lo.value)
    ensures "maxPrice" in p <==> u.priceRange.Some? && BelowCap(u.priceRange.value.hi)
    ensures "maxPrice" in p ==> p["maxPrice"] == IntToString(u.priceRange.value.hi.value)
    ensures "rating" in p <==> u.minRating.Some? && Positive(u.minRating.value)
    ensures "rating" in p ==> p["rating"] == IntToString(u.minRating.value.value)
  {
    map key | key in ParamKeys && UrlValue(u, key).Some? :: UrlValue(u, key).value
  }

  /** The parameters the catalog page reads and writes. */
  const ParamKeys: set<string> := {"category", "search", "minPrice", "maxPrice", "rating"}

  /** What `updateFilters` writes for one parameter: the first category, the
      query, and the numbers away from their defaults, each only when the
      update carries that field. */
  function UrlValue(u: FilterUpdate, key: string): Option<string> {
    if key == "category" then
      if u.categories.Some? && |u.categories.value| > 0 then Some(u.categories.value[0]) else None
    else if key == "search" then
      if u.searchQuery.Some? && u.searchQuery.value != "" then Some(u.searchQuery.value) else None
    else if key == "minPrice" then
      if u.priceRange.Some? && Positive(u.priceRange.value.lo) then Some(IntToString(u.priceRange.value.lo.value)) else None
    else if key == "maxPrice" then
      if u.priceRange.Some? && BelowCap(u.priceRange.value.hi) then Some(IntToString(u.priceRange.value.hi.value)) else None
    else if key == "rating" then
      if u.minRating.Some? && Positive(u.minRating.value) then Some(IntToString(u.minRating.value.value)) else None
    else None
  }

  /** `searchParams.get(key)`. */
  function Get(p: Params, key: string): Option<string> {
    if key in p then Some(p[key]) else None
  }

  /** A parameter that is present and not empty: what `param ? ... : ...` tests. */
  predicate Given(v: Option<string>) {
    v.Some? && v.value != ""
  }

  /** The URL effect: categories, search, price bounds and rating are read
      back from the parameters, with their defaults for missing or empty ones;
      the in-stock flag keeps its previous value. */
  function FromUrl(prev: Filters, p: Params): (f: Filters)
    ensures f.inStockOnly == prev.inStockOnly
    ensures |f.categories| <= 1
    ensures f.categories == [] <==> !Given(Get(p, "category"))
    ensures f.categories != [] ==> f.categories[0] == p["category"]
    ensures f.searchQuery == Get(p, "search").GetOr("")
    ensures !Given(Get(p, "minPrice")) ==> f.priceRange.lo == Num(0)
    ensures Given(Get(p, "minPrice")) ==> f.priceRange.lo == ParseInt(p["minPrice"])
    ensures !Given(Get(p, "maxPrice")) ==> f.priceRange.hi == Num(1000)
    ensures Given(Get(p, "maxPrice")) ==> f.priceRange.hi == ParseInt(p["maxPrice"])
    ensures !Given(Get(p, "rating")) ==> f.minRating == Num(0)
    ensures Given(Get(p, "rating")) ==> f.minRating == ParseInt(p["rating"])
  {
    var category := Get(p, "category");
    var search := Get(p, "search");
    var minPrice := Get(p, "minPrice");
    var maxPrice := Get(p, "maxPrice");
    var rating := Get(p, "rating");
    var categories := if Given(category) then [category.value] else [];
    var lo := if Given(minPrice) then ParseInt(minPrice.value) else Num(0);
    var hi := if Given(maxPrice) then ParseInt(maxPrice.value) else Num(1000);
    var minRating := if Given(rating) then ParseInt(rating.value) else Num(0);
    Filters(categories, PriceRange(lo, hi), minRating, prev.inStockOnly, if Given(search) then search.value else "")
  }

  /** Filters that survive the URL: at most one, non-empty, category, a
      non-negative lower bound, an upper bound of at most 1000 and a
      non-negative rating. */
  predicate UrlRepresentable(f: Filters) {
    |f.categories| <= 1 && (|f.categories| == 1 ==> f.categories[0] != "") &&
    f.priceRange.lo.Num? && f.priceRange.lo.value >= 0 &&
    f.priceRange.hi.Num? && f.priceRange.hi.value <= 1000 &&
    f.minRating.Num? && f.minRating.value >= 0
  }

  /** Writing a whole filter into the URL and reading it back gives it back,
      except for the in-stock flag, which the URL does not carry. */
  lemma UrlRoundTrip(prev: Filters, f: Filters)
    requires UrlRepresentable(f)
    ensures FromUrl(prev, UrlOf(FullUpdate(f))) == f.(inStockOnly := prev.inStockOnly)
  {
    UrlNumbersRoundTrip(prev, f);
    UrlTextRoundTrip(prev, f);
  }

  lemma UrlNumbersRoundTrip(prev: Filters, f: Filters)
    requires UrlRepresentable(f)
    ensures var g := FromUrl(prev, UrlOf(FullUpdate(f)));
            g.priceRange == f.priceRange && g.minRating == f.minRating
  {
    var p := UrlOf(FullUpdate(f));
    var g := FromUrl(prev, p);
    assert g.priceRange.lo == f.priceRange.lo by {
      NumberRoundTrip(f.priceRange.lo, Positive(f.priceRange.lo), 0, Get(p, "minPrice"), g.priceRange.lo);
    }
    assert g.priceRange.hi == f.priceRange.hi by {
      NumberRoundTrip(f.priceRange.hi, BelowCap(f.priceRange.hi), 1000, Get(p, "maxPrice"), g.priceRange.hi);
    }
    NumberRoundTrip(f.minRating, Positive(f.minRating), 0, Get(p, "rating"), g.minRating);
  }

  lemma UrlTextRoundTrip(prev: Filters, f: Filters)
    requires UrlRepresentable(f)
    ensures var g := FromUrl(prev, UrlOf(FullUpdate(f)));
            g.categories == f.categories && g.searchQuery == f.searchQuery
  {
    var p := UrlOf(FullUpdate(f));
    if |f.categories| == 1 {
      assert f.categories == [f.categories[0]];
    }
    if f.searchQuery != "" {
      assert Get(p, "search") == Some(f.searchQuery);
    }
  }

  /** One numeric parameter: written with `toString` when it is away from its
      default and read back with `parseInt`, or absent and read as the
      default, it comes back unchanged. */
  lemma NumberRoundTrip(n: JsInt, written: bool, default: int, param: Option<string>, read: JsInt)
    requires n.Num?
    requires written ==> param == Some(IntToString(n.value))
    requires !written ==> param.None? && n == Num(default)
    requires read == if Given(param) then ParseInt(param.value) else Num(default)
    ensures read == n
  {
    if written {
      ParseIntToString(n.value);
    }
  }

  /** A field the update does not carry is not written to the URL, so the URL
      effect that follows resets it to its default. */
  lemma UnsentFieldsReset(prev: Filters, u: FilterUpdate)
    ensures var g := FromUrl(Merge(prev, u), UrlOf(u));
            (u.categories.None? ==> g.categories == []) &&
            (u.priceRange.None? ==> g.priceRange == DefaultRange) &&
            (u.minRating.None? ==> g.minRating == Num(0)) &&
            (u.searchQuery.None? ==> g.searchQuery == "") &&
            g.inStockOnly == Merge(prev, u).inStockOnly
  {
  }

  /** The chips of the active-filters panel, and what removing one does. */
  datatype FilterKind = CategoryChip | PriceChip | RatingChip | StockChip

  /** The update `removeFilter(kind, value)` passes to `updateFilters`. */
  function RemoveUpdate(kind: FilterKind, value: string, current: Filters): FilterUpdate {
    match kind
    case CategoryChip => NoUpdate.(categories := Some(Without(current.categories, value)))
    case PriceChip => NoUpdate.(priceRange := Some(DefaultRange))
    case RatingChip => NoUpdate.(minRating := Some(Num(0)))
    case StockChip => NoUpdate.(inStockOnly := Some(false))
  }

  /** Removing a chip resets exactly its own filter: a category chip drops
      every copy of that category and keeps the rest in order. */
  lemma RemoveFilterResets(kind: FilterKind, value: string, f: Filters)
    ensures var g := Merge(f, RemoveUpdate(kind, value, f));
            match kind
            case CategoryChip =>
              value !in g.categories && Subsequence(g.categories, f.categories) &&
              (forall i :: 0 <= i < |f.categories| && f.categories[i] != value ==> f.categories[i] in g.categories) &&
              (forall c: string :: c != value ==> multiset(g.categories)[c] == multiset(f.categories)[c]) &&
              g == f.(categories := g.categories)
            case PriceChip => g == f.(priceRange := DefaultRange)
            case RatingChip => g == f.(minRating := Num(0))
            case StockChip => g == f.(inStockOnly := false)
  {
    WithoutCounts(f.categories, value);
  }

  /** `clearAllFilters`' update. */
  const ClearAll := FullUpdate(DefaultFilters)

  /** Clearing restores every default, and the URL it writes is empty, so the
      URL effect keeps the defaults. */
  lemma ClearAllRestoresDefaults(prev: Filters)
    ensures Merge(prev, ClearAll) == DefaultFilters
    ensures UrlOf(ClearAll) == map[]
    ensures FromUrl(DefaultFilters, UrlOf(ClearAll)) == DefaultFilters
  {
    assert UrlOf(ClearAll).Keys == {};
  }

  /** The filters a user's change leaves once the page has settled: the merge,
      then the URL effect when the parameters `updateFilters` writes differ
      from the current ones. */
  function Settle(filters: Filters, params: Params, u: FilterUpdate): Filters {
    var merged := Merge(filters, u);
    if UrlOf(u) != params then FromUrl(merged, UrlOf(u)) else merged
  }

  /** The catalog page's state: the loaded products, the filters and the URL. */
  class CatalogPage {
    var products: seq<Product>
    var filters: Filters
    var params: Params

    /** The page opens on a URL, whose effect sets the filters. */
    constructor (catalog: seq<Product>, url: Params)
      ensures products == catalog && params == url
      ensures filters == FromUrl(DefaultFilters, url)
    {
      products := catalog;
      params := url;
      filters := FromUrl(DefaultFilters, url);
    }

    /** `filteredProducts`. */
    function Shown(): seq<Product>
      reads this
    {
      ApplyFilters(products, filters)
    }

    /** `updateFilters(newFilters)`: merges the update into the filters and
        replaces the URL by the parameters built from the update alone. */
    method UpdateFilters(u: FilterUpdate) returns (urlChanged: bool)
      modifies this
      ensures products == old(products)
      ensures filters == Merge(old(filters), u)
      ensures params == UrlOf(u)
      ensures urlChanged <==> params != old(params)
    {
      filters := Merge(filters, u);
      var p := UrlOf(u);
      urlChanged := p != params;
      params := p;
    }

    /** The effect that runs when the URL's parameters change. */
    method SyncFromUrl()
      modifies this
      ensures products == old(products) && params == old(params)
      ensures filters == FromUrl(old(filters), params)
    {
      filters := FromUrl(filters, params);
    }

    /** A filter change as the user sees it: the handler, then the URL effect
        when the parameters changed. */
    method Interact(u: FilterUpdate)
      modifies this
      ensures products == old(products)
      ensures params == UrlOf(u)
      ensures UrlOf(u) != old(params) ==> filters == FromUrl(Merge(old(filters), u), UrlOf(u))
      ensures UrlOf(u) == old(params) ==> filters == Merge(old(filters), u)
      ensures filters == Settle(old(filters), old(params), u)
    {
      var changed := UpdateFilters(u);
      if changed {
        SyncFromUrl();
      }
    }

    /** `removeFilter(kind, value)`. */
    method RemoveFilter(kind: FilterKind, value: string) returns (urlChanged: bool)
      modifies this
      ensures products == old(products)
      ensures filters == Merge(old(filters), RemoveUpdate(kind, value, old(filters)))
      ensures params == UrlOf(RemoveUpdate(kind, value, old(filters)))
    {
      urlChanged := UpdateFilters(RemoveUpdate(kind, value, filters));
    }

    /** `clearAllFilters`. */
    method ClearAllFilters() returns (urlChanged: bool)
      modifies this
      ensures products == old(products)
      ensures filters == DefaultFilters
      ensures params == map[]
    {
      ClearAllRestoresDefaults(filters);
      urlChanged := UpdateFilters(ClearAll);
    }
  }
}
