/**
  The product table of the storefront: lookups by id, by category and by a
  search text, the top-rated products and the category list. The featured
  query sorts the table itself by rating before it slices, so every later
  query sees the table in rating order.
 */
module ProductStore {
  import opened Common
  import opened Text
  import opened Products
  import opened ProductSort

  /** `products.filter(p => p.category === category)`. */
  function InCategory(products: seq<Product>, category: string): (r: seq<Product>)
    ensures Subsequence(r, products)
    ensures forall p :: p in r <==> p in products && p.category == category
    ensures forall p: Product :: p.category == category ==> multiset(r)[p] == multiset(products)[p]
  {
    WhereMeaning(products, (p: Product) => p.category == category);
    Where(products, (p: Product) => p.category == category)
  }

  /** `products.filter(...)` with the search test of `searchProducts`. */
  function SearchResults(products: seq<Product>, query: string): (r: seq<Product>)
    ensures Subsequence(r, products)
    ensures forall p :: p in r <==> p in products && MatchesQuery(p, query)
    ensures forall p :: MatchesQuery(p, query) ==> multiset(r)[p] == multiset(products)[p]
  {
    WhereMeaning(products, p => MatchesQuery(p, query));
    Where(products, p => MatchesQuery(p, query))
  }

  /** A category has products exactly when the category list names it. */
  lemma CategoryListed(products: seq<Product>, category: string)
    ensures InCategory(products, category) != [] <==> category in DistinctCategories(products)
  {
    var r := InCategory(products, category);
    if category in DistinctCategories(products) {
      var i :| 0 <= i < |products| && products[i].category == category;
      assert products[i] in r;
    }
    if r != [] {
      assert r[0] in products;
    }
  }

  /** The search ignores the case of the query, and the empty query finds
      every product. */
  lemma SearchProperties(products: seq<Product>, query: string)
    ensures SearchResults(products, ToLower(query)) == SearchResults(products, query)
    ensures SearchResults(products, "") == products
  {
    forall i | 0 <= i < |products|
      ensures MatchesQuery(products[i], ToLower(query)) == MatchesQuery(products[i], query)
    {
      MatchesQueryIgnoresCase(products[i], query);
    }
    WhereAgree(products, p => MatchesQuery(p, ToLower(query)), p => MatchesQuery(p, query));
    forall i | 0 <= i < |products| ensures MatchesQuery(products[i], "") {
      assert OccursAt(ToLower(products[i].title), ToLower(""), 0);
    }
    WhereAll(products, p => MatchesQuery(p, ""));
  }

  /** How many products the featured queries return when no limit is given. */
  const FeaturedLimit := 8

  /** `products.sort((a, b) => b.rating - a.rating).slice(0, limit)`. */
  function TopRated(products: seq<Product>, limit: int): (r: seq<Product>)
    ensures r <= SortedBy(Rating, products)
    ensures 0 <= limit ==> |r| == if limit < |products| then limit else |products|
  {
    SliceTo(SortedBy(Rating, products), limit)
  }

  /** The top-rated products come in non-increasing rating, are taken from
      the products without repetition beyond theirs, and rate at least as high
      as every product left out. */
  lemma TopRatedMeaning(products: seq<Product>, limit: int)
    ensures var r := TopRated(products, limit);
            forall i, j :: 0 <= i < j < |r| ==> r[i].rating >= r[j].rating
    ensures multiset(TopRated(products, limit)) <= multiset(products)
    ensures var r := TopRated(products, limit);
            forall p, i :: p in products && p !in r && 0 <= i < |r| ==> p.rating <= r[i].rating
  {
    var t := SortedBy(Rating, products);
    var r := TopRated(products, limit);
    SortedByOrdered(Rating, products);
    SortedByPermutes(Rating, products);
    assert t == r + t[|r|..];
    forall i, j | 0 <= i < j < |r| ensures r[i].rating >= r[j].rating {
      assert !Precedes(Rating, t[j], t[i]);
    }
    forall p, i | p in products && p !in r && 0 <= i < |r| ensures p.rating <= r[i].rating {
      assert p in multiset(t);
      var j :| 0 <= j < |t| && t[j] == p;
      assert !Precedes(Rating, t[j], t[i]);
    }
  }

  /** Sorting what is already ordered changes nothing. */
  lemma {:induction false} SortedByOfOrdered(k: SortKey, s: seq<Product>)
    requires Ordered(k, s)
    ensures SortedBy(k, s) == s
  {
    if s != [] {
      var n := |s| - 1;
      assert Ordered(k, s[..n]);
      SortedByOfOrdered(k, s[..n]);
      assert s[..n] + [s[n]] == s;
      if n > 0 {
        assert !Precedes(k, s[n], s[..n][n - 1]);
      }
    }
  }

  /** A selection from an ordered sequence is ordered. */
  lemma SubsequenceOrdered(k: SortKey, r: seq<Product>, s: seq<Product>)
    requires Subsequence(r, s) && Ordered(k, s)
    ensures Ordered(k, r)
  {
    var m: seq<nat> :| Embeds(m, r, s);
    forall i, j | 0 <= i < j < |r| ensures !Precedes(k, r[j], r[i]) {
      assert r[i] == s[m[i]] && r[j] == s[m[j]];
    }
  }

  /** The product table. */
  class ProductService {
    var products: array<Product>

    constructor (seed: seq<Product>)
      ensures fresh(products)
      ensures products[..] == seed
    {
      products := new Product[|seed|](i requires 0 <= i < |seed| => seed[i]);
    }

    /** `getAll`: a copy of the table. */
    method GetAll() returns (all: seq<Product>)
      ensures all == products[..]
    {
      all := products[..];
    }

    /** `getById`: the first product with that id, or null. */
    method GetById(id: int) returns (r: Option<Product>)
      ensures r.None? <==> forall i :: 0 <= i < products.Length ==> products[i].id != id
      ensures r.Some? ==> r.value.id == id
      ensures r.Some? ==> exists i :: 0 <= i < products.Length && products[i] == r.value &&
                                     forall j :: 0 <= j < i ==> products[j].id != id
    {
      r := FindProduct(products[..], id);
    }

    /** `getByCategory`. */
    method GetByCategory(category: string) returns (r: seq<Product>)
      ensures r == InCategory(products[..], category)
    {
      r := InCategory(products[..], category);
    }

    /** `searchProducts`. */
    method SearchProducts(query: string) returns (r: seq<Product>)
      ensures r == SearchResults(products[..], query)
    {
      r := SearchResults(products[..], query);
    }

    /** `getFeaturedProducts(limit = 8)`: sorts the table itself by rating,
        then returns its first `limit` products. */
    method GetFeaturedProducts(limit: int := FeaturedLimit) returns (featured: seq<Product>)
      modifies products
      ensures products[..] == SortedBy(Rating, old(products[..]))
      ensures featured == TopRated(old(products[..]), limit)
    {
      SortInPlace(products, Rating);
      featured := SliceTo(products[..], limit);
    }

    /** `getCategories`. */
    method GetCategories() returns (categories: seq<string>)
      ensures categories == DistinctCategories(products[..])
    {
      categories := DistinctCategories(products[..]);
    }
  }

  /** After a featured query the table is in rating order: asking again
      returns the same products and leaves the table as it is, and the
      category and search queries return rating order too. */
  lemma FeaturedQueryReordersTable(table: seq<Product>, limit: int, category: string, query: string)
    ensures var sorted := SortedBy(Rating, table);
            SortedBy(Rating, sorted) == sorted && TopRated(sorted, limit) == TopRated(table, limit)
    ensures Ordered(Rating, InCategory(SortedBy(Rating, table), category))
    ensures Ordered(Rating, SearchResults(SortedBy(Rating, table), query))
  {
    var sorted := SortedBy(Rating, table);
    SortedByOrdered(Rating, table);
    SortedByOfOrdered(Rating, sorted);
    SubsequenceOrdered(Rating, InCategory(sorted, category), sorted);
    SubsequenceOrdered(Rating, SearchResults(sorted, query), sorted);
  }
}
