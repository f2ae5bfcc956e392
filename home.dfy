/**
  The data of the home page: the fetched product list is sorted in place by
  rating, the first eight become the featured products, and the distinct
  categories are read off the list after that sort. The page shows the
  first five categories.
 */
module HomePage {
  import opened Common
  import opened Products
  import opened ProductSort
  import opened ProductStore

  /** How many categories the home page shows. */
  const ShownCategoryCount := 5

  /** `loadHomeData`, once the fetch has returned `fetched`. */
  method LoadHomeData(fetched: seq<Product>) returns (featured: seq<Product>, categories: seq<string>)
    ensures featured == TopRated(fetched, FeaturedLimit)
    ensures categories == DistinctCategories(SortedBy(Rating, fetched))
  {
    var products := new Product[|fetched|](i requires 0 <= i < |fetched| => fetched[i]);
    assert products[..] == fetched;
    SortInPlace(products, Rating);
    featured := SliceTo(products[..], FeaturedLimit);
    categories := DistinctCategories(products[..]);
  }

  /** The featured products: at most eight, in non-increasing rating, taken
      from the fetched list, and rated at least as high as any product left out. */
  lemma FeaturedMeaning(fetched: seq<Product>)
    ensures var r := TopRated(fetched, FeaturedLimit);
            |r| <= FeaturedLimit && (|fetched| >= FeaturedLimit ==> |r| == FeaturedLimit) &&
            multiset(r) <= multiset(fetched)
    ensures var r := TopRated(fetched, FeaturedLimit);
            forall i, j :: 0 <= i < j < |r| ==> r[i].rating >= r[j].rating
  {
    TopRatedMeaning(fetched, FeaturedLimit);
  }

  /** The categories: distinct, one for every fetched product, none that no
      product has; the sort changes only their order. */
  lemma CategoriesMeaning(fetched: seq<Product>)
    ensures var c := DistinctCategories(SortedBy(Rating, fetched));
            Distinct(c) &&
            (forall i :: 0 <= i < |fetched| ==> fetched[i].category in c) &&
            (forall x :: x in c <==> x in DistinctCategories(fetched))
  {
    var sorted := SortedBy(Rating, fetched);
    var c := DistinctCategories(sorted);
    SortedByPermutes(Rating, fetched);
    forall i | 0 <= i < |fetched| ensures fetched[i].category in c {
      assert fetched[i] in multiset(sorted);
    }
    forall x | x in c ensures x in DistinctCategories(fetched) {
      var i :| 0 <= i < |sorted| && sorted[i].category == x;
      assert sorted[i] in multiset(fetched);
    }
  }

  /** `categories.slice(0, 5)`. */
  function ShownCategories(categories: seq<string>): (r: seq<string>)
    ensures r <= categories
    ensures |r| == if |categories| < ShownCategoryCount then |categories| else ShownCategoryCount
    ensures Distinct(categories) ==> Distinct(r)
  {
    SliceTo(categories, ShownCategoryCount)
  }
}
