/**
  The product record of the catalog and the lookups that the cart, the
  catalog page, the home page and the product service all perform on a
  list of products.
 */
module Products {
  import opened Common
  import opened Text

  /** Money is an exact non-negative amount of dollars. */
  type Price = r: real | 0.0 <= r

  /** A catalog entry. `originalPrice` is absent for products that were never
      discounted; `stockCount` is the largest quantity a cart may hold. */
  datatype Product = Product(
    id: int,
    title: string,
    description: string,
    price: Price,
    originalPrice: Option<real>,
    category: string,
    rating: real,
    inStock: bool,
    stockCount: nat)

  /** `products.find(p => p.id === id)`: the first product with that id. */
  function FindProduct(products: seq<Product>, id: int): (r: Option<Product>)
    ensures r.None? <==> forall i :: 0 <= i < |products| ==> products[i].id != id
    ensures r.Some? ==> r.value.id == id
    ensures r.Some? ==> exists i :: 0 <= i < |products| && products[i] == r.value &&
                                   forall j :: 0 <= j < i ==> products[j].id != id
  {
    if products == [] then None
    else if products[0].id == id then Some(products[0])
    else
      var r := FindProduct(products[1..], id);
      assert forall i :: 1 <= i < |products| ==> products[i] == products[1..][i - 1];
      r
  }

  /** `s.filter(keep)`: the products that pass the test, in their order. */
  function Where(s: seq<Product>, keep: Product -> bool): seq<Product> {
    if s == [] then [] else (if keep(s[0]) then [s[0]] else []) + Where(s[1..], keep)
  }

  /** A filter keeps, in order, exactly the products that pass, each as
      many times as it occurs. */
  lemma WhereMeaning(s: seq<Product>, keep: Product -> bool)
    ensures Subsequence(Where(s, keep), s)
    ensures forall p :: p in Where(s, keep) <==> p in s && keep(p)
    ensures forall p :: multiset(Where(s, keep))[p] == if keep(p) then multiset(s)[p] else 0
  {
    WhereSubsequence(s, keep);
    var r := Where(s, keep);
    forall p ensures multiset(r)[p] == if keep(p) then multiset(s)[p] else 0 {
      WhereCount(s, keep, p);
    }
  }

  lemma {:induction false} WhereSubsequence(s: seq<Product>, keep: Product -> bool)
    ensures Subsequence(Where(s, keep), s)
  {
    if s == [] {
      SubsequenceEmpty<Product>([]);
    } else {
      var x, rest := s[0], Where(s[1..], keep);
      WhereSubsequence(s[1..], keep);
      assert Where(s, keep) == if keep(x) then [x] + rest else rest;
      assert s == [x] + s[1..];
      SubsequenceCons(x, rest, s[1..], keep(x));
    }
  }

  lemma {:induction false} WhereCount(s: seq<Product>, keep: Product -> bool, p: Product)
    ensures multiset(Where(s, keep))[p] == if keep(p) then multiset(s)[p] else 0
  {
    if s != [] {
      var x, rest := s[0], Where(s[1..], keep);
      var h := if keep(x) then [x] else [];
      WhereCount(s[1..], keep, p);
      assert Where(s, keep) == h + rest;
      assert multiset(h + rest) == multiset(h) + multiset(rest);
      assert s == [x] + s[1..];
      assert multiset(s) == multiset([x]) + multiset(s[1..]);
    }
  }

  /** A filter that every product passes keeps the sequence as it is. */
  lemma {:induction false} WhereAll(s: seq<Product>, keep: Product -> bool)
    ensures (forall i :: 0 <= i < |s| ==> keep(s[i])) ==> Where(s, keep) == s
  {
    if s != [] && forall i :: 0 <= i < |s| ==> keep(s[i]) {
      assert forall i :: 0 <= i < |s[1..]| ==> s[1..][i] == s[i + 1];
      WhereAll(s[1..], keep);
      assert s == [s[0]] + s[1..];
    }
  }

  /** A filter distributes over concatenation. */
  lemma {:induction false} WhereAppend(a: seq<Product>, b: seq<Product>, keep: Product -> bool)
    ensures Where(a + b, keep) == Where(a, keep) + Where(b, keep)
  {
    var c := a + b;
    if a == [] {
      assert c == b;
    } else {
      var h := if keep(a[0]) then [a[0]] else [];
      assert c[0] == a[0] && c[1..] == a[1..] + b;
      assert Where(c, keep) == h + Where(c[1..], keep);
      WhereAppend(a[1..], b, keep);
      assert Where(a, keep) == h + Where(a[1..], keep);
      assert h + (Where(a[1..], keep) + Where(b, keep)) == (h + Where(a[1..], keep)) + Where(b, keep);
    }
  }

  /** Two tests that agree on every product of `s` keep the same products. */
  lemma {:induction false} WhereAgree(s: seq<Product>, f: Product -> bool, g: Product -> bool)
    requires forall i :: 0 <= i < |s| ==> f(s[i]) == g(s[i])
    ensures Where(s, f) == Where(s, g)
  {
    if s != [] {
      assert forall i :: 0 <= i < |s[1..]| ==> s[1..][i] == s[i + 1];
      WhereAgree(s[1..], f, g);
    }
  }

  /** The search test of the catalog page and of the product service: the
      lower-cased query occurs in the lower-cased title, description or category. */
  predicate MatchesQuery(p: Product, query: string) {
    var q := ToLower(query);
    Includes(ToLower(p.title), q) || Includes(ToLower(p.description), q) ||
    Includes(ToLower(p.category), q)
  }

  /** The search ignores the case of the query's ASCII letters. */
  lemma MatchesQueryIgnoresCase(p: Product, query: string)
    ensures MatchesQuery(p, ToLower(query)) == MatchesQuery(p, query)
  {
    ToLowerIdempotent(query);
  }

  /** `products.map(p => p.category)`. */
  function CategoriesOf(products: seq<Product>): (r: seq<string>)
    ensures |r| == |products|
    ensures forall i :: 0 <= i < |products| ==> r[i] == products[i].category
  {
    seq(|products|, i requires 0 <= i < |products| => products[i].category)
  }

  /** `[...new Set(products.map(p => p.category))]`. */
  function DistinctCategories(products: seq<Product>): (r: seq<string>)
    ensures Distinct(r)
    ensures forall i :: 0 <= i < |products| ==> products[i].category in r
    ensures forall c :: c in r ==> exists i :: 0 <= i < |products| && products[i].category == c
    ensures forall i :: 0 <= i < |r| ==> r[i] in CategoriesOf(products)
    ensures forall i, j :: 0 <= i < j < |r| ==>
              FirstIndex(CategoriesOf(products), r[i]) < FirstIndex(CategoriesOf(products), r[j])
  {
    var cs := CategoriesOf(products);
    var r := Dedup(cs);
    assert forall c :: c in r ==> c in cs;
    r
  }
}
