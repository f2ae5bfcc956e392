/**
  The sort engine of the product grid: a copy of the product list is sorted
  in place by one of five keys, or left in its input order for "featured".
  `Array.prototype.sort` is stable, so the result is the unique stable sort;
  it is computed here by insertion sort, and `SortedBy` is its specification.
 */
module ProductSort {
  import opened Products

  datatype SortKey = Featured | PriceLow | PriceHigh | Rating | Newest | Name

  /** The value of the sort selector; an unknown value sorts like "featured". */
  function ParseSortKey(s: string): (k: SortKey)
    ensures k == Featured <==> s !in {"price-low", "price-high", "rating", "newest", "name"}
  {
    if s == "price-low" then PriceLow
    else if s == "price-high" then PriceHigh
    else if s == "rating" then Rating
    else if s == "newest" then Newest
    else if s == "name" then Name
    else Featured
  }

  /** `a.title.localeCompare(b.title)`, taken as code-point lexicographic order:
      negative, zero or positive. */
  function TitleCompare(a: string, b: string): (c: int)
    ensures -1 <= c <= 1
  {
    if a == [] && b == [] then 0
    else if a == [] then -1
    else if b == [] then 1
    else if a[0] < b[0] then -1
    else if a[0] > b[0] then 1
    else TitleCompare(a[1..], b[1..])
  }

  lemma {:induction false} TitleCompareAntisymmetric(a: string, b: string)
    ensures TitleCompare(a, b) == -TitleCompare(b, a)
    ensures TitleCompare(a, b) == 0 <==> a == b
  {
    if a != [] && b != [] && a[0] == b[0] {
      TitleCompareAntisymmetric(a[1..], b[1..]);
      assert a == [a[0]] + a[1..] && b == [b[0]] + b[1..];
    }
  }

  lemma {:induction false} TitleCompareTransitive(a: string, b: string, c: string)
    requires TitleCompare(a, b) < 0 && TitleCompare(b, c) < 0
    ensures TitleCompare(a, c) < 0
  {
    if a != [] && b != [] && c != [] && a[0] == b[0] && b[0] == c[0] {
      TitleCompareTransitive(a[1..], b[1..], c[1..]);
    }
  }

  /** `cmp(a, b) < 0` for the comparator that ProductGrid.jsx passes to `sort`
      for key `k`: `a` must come before `b`. */
  predicate Precedes(k: SortKey, a: Product, b: Product) {
    match k
    case Featured => false
    case PriceLow => a.price - b.price < 0.0
    case PriceHigh => b.price - a.price < 0.0
    case Rating => b.rating - a.rating < 0.0
    case Newest => b.id - a.id < 0
    case Name => TitleCompare(a.title, b.title) < 0
  }

  lemma PrecedesIrreflexive(k: SortKey, a: Product)
    ensures !Precedes(k, a, a)
  {
    if k == Name { TitleCompareAntisymmetric(a.title, a.title); }
  }

  lemma PrecedesTransitive(k: SortKey, a: Product, b: Product, c: Product)
    requires Precedes(k, a, b) && Precedes(k, b, c)
    ensures Precedes(k, a, c)
  {
    if k == Name { TitleCompareTransitive(a.title, b.title, c.title); }
  }

  /** Neither-before is transitive too: `Precedes` is a strict weak order. */
  lemma NotPrecedesTransitive(k: SortKey, a: Product, b: Product, c: Product)
    requires !Precedes(k, a, b) && !Precedes(k, b, c)
    ensures !Precedes(k, a, c)
  {
    if k == Name {
      TitleCompareAntisymmetric(a.title, b.title);
      TitleCompareAntisymmetric(b.title, c.title);
      TitleCompareAntisymmetric(a.title, c.title);
      if a.title != b.title && b.title != c.title {
        TitleCompareTransitive(c.title, b.title, a.title);
      }
    }
  }

  /** If `a` comes before `c`, any `b` comes after `a` or before `c`. */
  lemma PrecedesSplit(k: SortKey, a: Product, b: Product, c: Product)
    requires Precedes(k, a, c)
    ensures Precedes(k, a, b) || Precedes(k, b, c)
  {
    if k == Name {
      TitleCompareAntisymmetric(a.title, b.title);
      if TitleCompare(a.title, b.title) > 0 {
        TitleCompareTransitive(b.title, a.title, c.title);
      }
    }
  }

  lemma PrecedesAsymmetric(k: SortKey, a: Product, b: Product)
    requires Precedes(k, a, b)
    ensures !Precedes(k, b, a)
  {
    if Precedes(k, b, a) {
      PrecedesTransitive(k, a, b, a);
      PrecedesIrreflexive(k, a);
    }
  }

  /** No element is required to come before an element to its left. */
  predicate Ordered(k: SortKey, s: seq<Product>) {
    forall i, j :: 0 <= i < j < |s| ==> !Precedes(k, s[j], s[i])
  }

  /** One step of insertion sort: `x` moves left past the elements it must
      precede, and no further. */
  function InsertBack(k: SortKey, t: seq<Product>, x: Product): (r: seq<Product>)
    ensures |r| == |t| + 1
  {
    if t == [] || !Precedes(k, x, t[|t| - 1]) then t + [x]
    else InsertBack(k, t[..|t| - 1], x) + [t[|t| - 1]]
  }

  /** The stable sort of `s` by key `k`. */
  function SortedBy(k: SortKey, s: seq<Product>): (r: seq<Product>)
    ensures |r| == |s|
  {
    if s == [] then []
    else InsertBack(k, SortedBy(k, s[..|s| - 1]), s[|s| - 1])
  }

  lemma {:induction false} InsertBackPermutes(k: SortKey, t: seq<Product>, x: Product)
    ensures multiset(InsertBack(k, t, x)) == multiset(t) + multiset{x}
  {
    if t == [] || !Precedes(k, x, t[|t| - 1]) {
      assert InsertBack(k, t, x) == t + [x];
    } else {
      var n := |t| - 1;
      var u := InsertBack(k, t[..n], x);
      assert InsertBack(k, t, x) == u + [t[n]];
      InsertBackPermutes(k, t[..n], x);
      MultisetLast(t);
    }
  }

  /** Every key's sort returns a permutation of its input. */
  lemma {:induction false} SortedByPermutes(k: SortKey, s: seq<Product>)
    ensures multiset(SortedBy(k, s)) == multiset(s)
  {
    if s != [] {
      var n := |s| - 1;
      var t := SortedBy(k, s[..n]);
      assert SortedBy(k, s) == InsertBack(k, t, s[n]);
      SortedByPermutes(k, s[..n]);
      InsertBackPermutes(k, t, s[n]);
      MultisetLast(s);
    }
  }

  lemma MultisetLast(s: seq<Product>)
    requires s != []
    ensures multiset(s) == multiset(s[..|s| - 1]) + multiset{s[|s| - 1]}
  {
    assert s == s[..|s| - 1] + [s[|s| - 1]];
  }

  lemma {:induction false} InsertBackOrdered(k: SortKey, t: seq<Product>, x: Product)
    requires Ordered(k, t)
    ensures Ordered(k, InsertBack(k, t, x))
  {
    if t == [] {
      assert InsertBack(k, t, x) == [x];
    } else if !Precedes(k, x, t[|t| - 1]) {
      var n := |t| - 1;
      forall i | 0 <= i < |t| ensures !Precedes(k, x, t[i]) {
        if i < n {
          NotPrecedesTransitive(k, x, t[n], t[i]);
        }
      }
      OrderedAppend(k, t, x);
    } else {
      var n := |t| - 1;
      var u := InsertBack(k, t[..n], x);
      assert Ordered(k, t[..n]);
      InsertBackOrdered(k, t[..n], x);
      InsertBackPermutes(k, t[..n], x);
      PrecedesAsymmetric(k, x, t[n]);
      forall i | 0 <= i < |u| ensures !Precedes(k, t[n], u[i]) {
        assert u[i] in multiset(u);
        if u[i] != x {
          assert u[i] in multiset(t[..n]);
          var m :| 0 <= m < n && t[..n][m] == u[i];
        }
      }
      OrderedAppend(k, u, t[n]);
    }
  }

  /** An element that need not come before any element of an ordered
      sequence may follow it. */
  lemma OrderedAppend(k: SortKey, t: seq<Product>, y: Product)
    requires Ordered(k, t)
    requires forall i :: 0 <= i < |t| ==> !Precedes(k, y, t[i])
    ensures Ordered(k, t + [y])
  {
    var r := t + [y];
    forall i, j | 0 <= i < j < |r| ensures !Precedes(k, r[j], r[i]) {
      assert r[i] == t[i];
      if j < |t| {
        assert r[j] == t[j];
      }
    }
  }

  /** The result of every key's sort is ordered by that key. */
  lemma {:induction false} SortedByOrdered(k: SortKey, s: seq<Product>)
    ensures Ordered(k, SortedBy(k, s))
  {
    if s != [] {
      SortedByOrdered(k, s[..|s| - 1]);
      InsertBackOrdered(k, SortedBy(k, s[..|s| - 1]), s[|s| - 1]);
    }
  }

  /** Neither must come before the other: equal keys. */
  predicate SameKey(k: SortKey, a: Product, b: Product) {
    !Precedes(k, a, b) && !Precedes(k, b, a)
  }

  /** The elements of `s` whose key equals that of `y`, in their order in `s`. */
  function KeyClass(k: SortKey, s: seq<Product>, y: Product): seq<Product> {
    if s == [] then []
    else KeyClass(k, s[..|s| - 1], y) + (if SameKey(k, s[|s| - 1], y) then [s[|s| - 1]] else [])
  }

  lemma {:induction false} InsertBackKeyClass(k: SortKey, t: seq<Product>, x: Product, y: Product)
    ensures KeyClass(k, InsertBack(k, t, x), y) ==
            KeyClass(k, t, y) + (if SameKey(k, x, y) then [x] else [])
  {
    var r := InsertBack(k, t, x);
    if t == [] || !Precedes(k, x, t[|t| - 1]) {
      assert r[..|r| - 1] == t;
    } else {
      var n := |t| - 1;
      var u := InsertBack(k, t[..n], x);
      assert r[..|r| - 1] == u;
      InsertBackKeyClass(k, t[..n], x, y);
      if SameKey(k, x, y) {
        PrecedesSplit(k, x, y, t[n]);
      }
    }
  }

  /** Stability: elements with equal keys keep their input relative order. */
  lemma {:induction false} SortedByStable(k: SortKey, s: seq<Product>, y: Product)
    ensures KeyClass(k, SortedBy(k, s), y) == KeyClass(k, s, y)
  {
    if s != [] {
      var n := |s| - 1;
      SortedByStable(k, s[..n], y);
      InsertBackKeyClass(k, SortedBy(k, s[..n]), s[n], y);
    }
  }

  /** No two different products of `s` have equal keys. */
  predicate NoTies(k: SortKey, s: seq<Product>) {
    forall i, j :: 0 <= i < |s| && 0 <= j < |s| && SameKey(k, s[i], s[j]) ==> s[i] == s[j]
  }

  lemma NoTiesPermutation(k: SortKey, s: seq<Product>, r: seq<Product>)
    requires NoTies(k, s) && multiset(r) == multiset(s)
    ensures NoTies(k, r)
  {
    forall i, j | 0 <= i < |r| && 0 <= j < |r| && SameKey(k, r[i], r[j]) ensures r[i] == r[j] {
      assert r[i] in multiset(s) && r[j] in multiset(s);
      var i' :| 0 <= i' < |s| && s[i'] == r[i];
      var j' :| 0 <= j' < |s| && s[j'] == r[j];
    }
  }

  /** Two ordered permutations of each other start with key-equal elements. */
  lemma OrderedHeadsSameKey(k: SortKey, r1: seq<Product>, r2: seq<Product>)
    requires Ordered(k, r1) && Ordered(k, r2) && r1 != []
    requires multiset(r1) == multiset(r2)
    ensures r2 != [] && SameKey(k, r1[0], r2[0])
  {
    assert r1[0] in multiset(r2);
    var m :| 0 <= m < |r2| && r2[m] == r1[0];
    assert r2[0] in multiset(r1);
    var m' :| 0 <= m' < |r1| && r1[m'] == r2[0];
    PrecedesIrreflexive(k, r1[0]);
    if m > 0 { assert !Precedes(k, r2[m], r2[0]); }
    if m' > 0 { assert !Precedes(k, r1[m'], r1[0]); }
  }

  lemma NoTiesTail(k: SortKey, s: seq<Product>)
    requires NoTies(k, s) && s != []
    ensures NoTies(k, s[1..])
  {
    forall i, j | 0 <= i < |s| - 1 && 0 <= j < |s| - 1 && SameKey(k, s[1..][i], s[1..][j])
      ensures s[1..][i] == s[1..][j]
    {
      assert s[1..][i] == s[i + 1] && s[1..][j] == s[j + 1];
    }
  }

  lemma MultisetTail(r1: seq<Product>, r2: seq<Product>)
    requires r1 != [] && r2 != [] && r1[0] == r2[0] && multiset(r1) == multiset(r2)
    ensures multiset(r1[1..]) == multiset(r2[1..])
  {
    assert r1 == [r1[0]] + r1[1..] && r2 == [r2[0]] + r2[1..];
    assert multiset(r1[1..]) == multiset(r1) - multiset{r1[0]};
    assert multiset(r2[1..]) == multiset(r2) - multiset{r1[0]};
  }

  lemma OrderedTail(k: SortKey, s: seq<Product>)
    requires Ordered(k, s) && s != []
    ensures Ordered(k, s[1..])
  {
    forall i, j | 0 <= i < j < |s| - 1
      ensures !Precedes(k, s[1..][j], s[1..][i])
    {
      assert s[1..][i] == s[i + 1] && s[1..][j] == s[j + 1];
    }
  }

  /** Without ties, an ordered permutation is unique. */
  lemma {:induction false} OrderedPermutationUnique(k: SortKey, r1: seq<Product>, r2: seq<Product>)
    requires Ordered(k, r1) && Ordered(k, r2) && NoTies(k, r1)
    requires multiset(r1) == multiset(r2)
    ensures r1 == r2
  {
    if r1 == [] {
      assert |r2| == |multiset(r2)| == 0;
    } else {
      OrderedHeadsSameKey(k, r1, r2);
      NoTiesPermutation(k, r1, r2);
      assert r1[0] in multiset(r2);
      var m :| 0 <= m < |r2| && r2[m] == r1[0];
      assert r1[0] == r2[0];
      OrderedTail(k, r1);
      OrderedTail(k, r2);
      NoTiesTail(k, r1);
      MultisetTail(r1, r2);
      OrderedPermutationUnique(k, r1[1..], r2[1..]);
      assert r1 == [r1[0]] + r1[1..] && r2 == [r2[0]] + r2[1..];
    }
  }

  function Reverse(s: seq<Product>): (r: seq<Product>)
    ensures |r| == |s|
    ensures forall i :: 0 <= i < |s| ==> r[i] == s[|s| - 1 - i]
  {
    if s == [] then [] else [s[|s| - 1]] + Reverse(s[..|s| - 1])
  }

  lemma {:induction false} ReversePermutes(s: seq<Product>)
    ensures multiset(Reverse(s)) == multiset(s)
  {
    if s != [] {
      ReversePermutes(s[..|s| - 1]);
      assert s == s[..|s| - 1] + [s[|s| - 1]];
    }
  }

  /** Sorting by price descending gives exactly the reverse of sorting by
      price ascending when no two products share a price. */
  lemma PriceHighReversesPriceLow(s: seq<Product>)
    requires NoTies(PriceLow, s)
    ensures SortedBy(PriceHigh, s) == Reverse(SortedBy(PriceLow, s))
  {
    var low := SortedBy(PriceLow, s);
    var high := SortedBy(PriceHigh, s);
    SortedByOrdered(PriceLow, s);
    SortedByOrdered(PriceHigh, s);
    SortedByPermutes(PriceLow, s);
    SortedByPermutes(PriceHigh, s);
    ReversePermutes(low);
    var rev := Reverse(low);
    assert Ordered(PriceHigh, rev) by {
      forall i, j | 0 <= i < j < |rev| ensures !Precedes(PriceHigh, rev[j], rev[i]) {
        assert !Precedes(PriceLow, low[|low| - 1 - i], low[|low| - 1 - j]);
      }
    }
    assert NoTies(PriceHigh, s);
    NoTiesPermutation(PriceHigh, s, high);
    OrderedPermutationUnique(PriceHigh, high, rev);
  }

  /** Where `InsertBack` puts `x`: after the elements it need not precede,
      before the run at the end that it must precede. */
  lemma {:induction false} InsertBackAt(k: SortKey, t: seq<Product>, x: Product, j: nat)
    requires j <= |t|
    requires forall m :: j <= m < |t| ==> Precedes(k, x, t[m])
    requires j == 0 || !Precedes(k, x, t[j - 1])
    ensures InsertBack(k, t, x) == t[..j] + [x] + t[j..]
  {
    if j == |t| {
      assert t[..j] == t && t[j..] == [];
    } else {
      var n := |t| - 1;
      var p := t[..n];
      assert InsertBack(k, t, x) == InsertBack(k, p, x) + [t[n]];
      assert p[..j] == t[..j];
      assert j == 0 || p[j - 1] == t[j - 1];
      InsertBackAt(k, p, x, j);
      assert t[j..] == p[j..] + [t[n]];
    }
  }

  /** Moves `a[i]` left into the sorted prefix `a[..i]`, shifting the
      elements it must precede one place to the right. */
  method InsertAt(a: array<Product>, i: nat, k: SortKey)
    requires i < a.Length
    modifies a
    ensures a[..i + 1] == InsertBack(k, old(a[..i]), old(a[i]))
    ensures forall m :: i < m < a.Length ==> a[m] == old(a[m])
  {
    var x := a[i];
    ghost var t := a[..i];
    var j := ShiftRight(a, i, k, x);
    a[j] := x;
    ghost var r := t[..j] + [x] + t[j..];
    forall m | 0 <= m <= i
      ensures a[m] == r[m]
    {
      if m < j {
        assert r[m] == t[m];
      } else if j < m {
        assert r[m] == t[m - 1];
      }
    }
    assert a[..i + 1] == r;
  }

  /** The loop of `InsertAt`: shifts right, one place, the elements at the
      end of `a[..i]` that `x` must precede, and returns the gap left. */
  method ShiftRight(a: array<Product>, i: nat, k: SortKey, x: Product) returns (j: nat)
    requires i < a.Length
    modifies a
    ensures j <= i
    ensures forall m :: 0 <= m < j ==> a[m] == old(a[m])
    ensures forall m :: j < m <= i ==> a[m] == old(a[m - 1])
    ensures forall m :: i < m < a.Length ==> a[m] == old(a[m])
    ensures InsertBack(k, old(a[..i]), x) == old(a[..j]) + [x] + old(a[j..i])
  {
    ghost var t := a[..i];
    j := i;
    while j > 0 && Precedes(k, x, a[j - 1])
      invariant 0 <= j <= i
      invariant forall m :: 0 <= m < j ==> a[m] == old(a[m])
      invariant forall m :: j < m <= i ==> a[m] == old(a[m - 1])
      invariant forall m :: i < m < a.Length ==> a[m] == old(a[m])
      invariant forall m :: j <= m < i ==> Precedes(k, x, t[m])
    {
      a[j] := a[j - 1];
      j := j - 1;
    }
    InsertBackAt(k, t, x, j);
    assert old(a[..j]) == t[..j] && old(a[j..i]) == t[j..];
  }

  /** Sorts the array in place by key `k`: the insertion sort behind `sorted.sort(cmp)`. */
  method SortInPlace(a: array<Product>, k: SortKey)
    modifies a
    ensures a[..] == SortedBy(k, old(a[..]))
  {
    ghost var input := a[..];
    var i := 0;
    while i < a.Length
      invariant 0 <= i <= a.Length
      invariant a[..i] == SortedBy(k, input[..i])
      invariant forall m :: i <= m < a.Length ==> a[m] == input[m]
    {
      InsertAt(a, i, k);
      SortedByStep(k, input, i);
      i := i + 1;
    }
    assert a[..] == a[..a.Length] && input[..a.Length] == input;
  }

  /** Sorting one more element inserts it into the sorted prefix. */
  lemma SortedByStep(k: SortKey, s: seq<Product>, i: nat)
    requires i < |s|
    ensures SortedBy(k, s[..i + 1]) == InsertBack(k, SortedBy(k, s[..i]), s[i])
  {
    assert s[..i + 1][..i] == s[..i];
  }

  /** Sorting by name leaves the titles in order. */
  lemma SortedByNameTitles(ps: seq<Product>)
    ensures var r := SortedBy(Name, ps);
            forall i, j :: 0 <= i < j < |r| ==> TitleCompare(r[i].title, r[j].title) <= 0
  {
    SortedByOrdered(Name, ps);
    var r := SortedBy(Name, ps);
    forall i, j | 0 <= i < j < |r| ensures TitleCompare(r[i].title, r[j].title) <= 0 {
      assert !Precedes(Name, r[j], r[i]);
      TitleCompareAntisymmetric(r[i].title, r[j].title);
    }
  }

  /** What each selector value means for the sorted list: "price-low" gives
      non-decreasing prices, "price-high" non-increasing prices, "rating"
      non-increasing ratings, "newest" non-increasing ids and "name" titles in
      order; any other value keeps the input order. */
  lemma SortKeyMeaning(s: string, ps: seq<Product>)
    ensures var r := SortedBy(ParseSortKey("price-low"), ps);
            forall i, j :: 0 <= i < j < |r| ==> r[i].price <= r[j].price
    ensures var r := SortedBy(ParseSortKey("price-high"), ps);
            forall i, j :: 0 <= i < j < |r| ==> r[i].price >= r[j].price
    ensures var r := SortedBy(ParseSortKey("rating"), ps);
            forall i, j :: 0 <= i < j < |r| ==> r[i].rating >= r[j].rating
    ensures var r := SortedBy(ParseSortKey("newest"), ps);
            forall i, j :: 0 <= i < j < |r| ==> r[i].id >= r[j].id
    ensures var r := SortedBy(ParseSortKey("name"), ps);
            forall i, j :: 0 <= i < j < |r| ==> TitleCompare(r[i].title, r[j].title) <= 0
    ensures s !in {"price-low", "price-high", "rating", "newest", "name"} ==> ParseSortKey(s) == Featured
  {
    assert ParseSortKey("price-low") == PriceLow && ParseSortKey("price-high") == PriceHigh;
    assert ParseSortKey("rating") == Rating && ParseSortKey("newest") == Newest;
    assert ParseSortKey("name") == Name;
    SortedByOrdered(PriceLow, ps);
    SortedByOrdered(PriceHigh, ps);
    SortedByOrdered(Rating, ps);
    SortedByOrdered(Newest, ps);
    SortedByNameTitles(ps);
  }

  /** The sort effect of ProductGrid.jsx: sort a copy of `products` by the
      selected key; "featured" keeps the input order. */
  method SortProducts(products: seq<Product>, k: SortKey) returns (sorted: seq<Product>)
    ensures sorted == if k == Featured then products else SortedBy(k, products)
  {
    var a := new Product[|products|](i requires 0 <= i < |products| => products[i]);
    assert a[..] == products;
    if k != Featured {
      SortInPlace(a, k);
    }
    sorted := a[..];
  }
}
