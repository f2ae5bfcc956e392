/**
  The filter side panel: the category check boxes, the two price sliders,
  the rating choices and the "active filters" summary.
 */
module FilterPanel {
  import opened Common
  import opened Text
  import opened Catalog

  /** A category box is shown checked when the selection contains it. */
  predicate IsChecked(selected: seq<string>, category: string) {
    category in selected
  }

  /** The selection a category box reports: checking appends the category at
      the end, unchecking drops every copy of it. */
  function ToggleCategory(selected: seq<string>, category: string, checked: bool): (r: seq<string>)
    ensures IsChecked(r, category) <==> checked
    ensures checked ==> |r| == |selected| + 1 && r[..|selected|] == selected && r[|selected|] == category
    ensures !checked ==> Subsequence(r, selected)
    ensures !checked ==> forall i :: 0 <= i < |selected| && selected[i] != category ==> selected[i] in r
    ensures !checked ==> forall c: string :: c != category ==> multiset(r)[c] == multiset(selected)[c]
  {
    if checked then selected + [category]
    else
      WithoutCounts(selected, category);
      Without(selected, category)
  }

  /** Checking a box that was clear and clearing it again restores the selection. */
  lemma CheckThenUncheck(selected: seq<string>, category: string)
    requires !IsChecked(selected, category)
    ensures ToggleCategory(ToggleCategory(selected, category, true), category, false) == selected
  {
    WithoutAppend(selected, category);
  }

  lemma {:induction false} WithoutAppend(s: seq<string>, x: string)
    requires x !in s
    ensures Without(s + [x], x) == s
  {
    var t := s + [x];
    if s == [] {
      assert t[1..] == [];
      assert Without(t, x) == Without(t[1..], x);
    } else {
      assert t[0] == s[0] != x;
      assert t[1..] == s[1..] + [x];
      assert Without(t, x) == [s[0]] + Without(t[1..], x);
      WithoutAppend(s[1..], x);
      assert s == [s[0]] + s[1..];
    }
  }

  /** The price sliders' own copy of the range, kept from the first render. */
  class PriceSliders {
    var localRange: seq<JsInt>

    constructor (priceRange: PriceRange)
      ensures localRange == [priceRange.lo, priceRange.hi]
    {
      localRange := [priceRange.lo, priceRange.hi];
    }

    /** `handleRangeChange(index, value)`: copies the range, parses the slider
        value into one bound, keeps the copy and reports it; nothing keeps the
        lower bound below the upper one. */
    method HandleRangeChange(index: int, value: string) returns (reported: PriceRange)
      requires index == 0 || index == 1
      requires |localRange| == 2
      modifies this
      ensures localRange == old(localRange)[index := ParseInt(value)]
      ensures reported == PriceRange(localRange[0], localRange[1])
    {
      var newRange := new JsInt[2];
      newRange[0] := localRange[0];
      newRange[1] := localRange[1];
      newRange[index] := ParseInt(value);
      localRange := newRange[..];
      reported := PriceRange(newRange[0], newRange[1]);
    }
  }

  /** Moving the lower slider above the upper one is accepted as it is: the
      reported range has its lower bound above its upper bound. */
  method SlidersCross(sliders: PriceSliders, low: string, high: string) returns (reported: PriceRange)
    requires |sliders.localRange| == 2
    requires ParseInt(low).Num? && ParseInt(high).Num? && ParseInt(high).value < ParseInt(low).value
    modifies sliders
    ensures reported.lo.Num? && reported.hi.Num? && reported.lo.value > reported.hi.value
  {
    var _ := sliders.HandleRangeChange(1, high);
    reported := sliders.HandleRangeChange(0, low);
  }

  /** The rating choices, top to bottom; 0 stands for "All ratings". */
  const RatingOptions: seq<int> := [4, 3, 2, 1, 0]

  /** A rating choice is shown selected when it equals the filter's minimum. */
  predicate RatingChecked(minRating: JsInt, option: int) {
    minRating == Num(option)
  }

  /** Only 0 switches the rating test off; at most one option shows
      selected, exactly one when the minimum is one of them. */
  lemma RatingOptionsMeaning(minRating: JsInt)
    ensures forall i :: 0 <= i < |RatingOptions| ==>
              (Positive(Num(RatingOptions[i])) <==> RatingOptions[i] != 0)
    ensures forall i, j :: 0 <= i < j < |RatingOptions| ==>
              !(RatingChecked(minRating, RatingOptions[i]) && RatingChecked(minRating, RatingOptions[j]))
    ensures (exists i :: 0 <= i < |RatingOptions| && RatingChecked(minRating, RatingOptions[i])) <==>
              minRating.Num? && 0 <= minRating.value <= 4
  {
    if minRating.Num? && 0 <= minRating.value <= 4 {
      assert RatingChecked(minRating, RatingOptions[4 - minRating.value]);
    }
  }

  /** `hasFilters`: any filter besides the search is away from its default;
      the summary renders nothing otherwise. */
  predicate HasFilters(f: Filters) {
    |f.categories| > 0 || Positive(f.priceRange.lo) || BelowCap(f.priceRange.hi) ||
    Positive(f.minRating) || f.inStockOnly
  }

  /** The price chip shows when either bound is away from the slider's ends. */
  predicate ShowPriceChip(f: Filters) {
    Positive(f.priceRange.lo) || BelowCap(f.priceRange.hi)
  }

  /** The chips that the summary shows, one per category and one per other
      active filter. */
  function Chips(f: Filters): (chips: seq<FilterKind>)
    ensures |chips| == 0 <==> !HasFilters(f)
    ensures |chips| >= |f.categories|
    ensures forall i :: 0 <= i < |f.categories| ==> chips[i] == CategoryChip
    ensures PriceChip in chips <==> ShowPriceChip(f)
    ensures RatingChip in chips <==> Positive(f.minRating)
    ensures StockChip in chips <==> f.inStockOnly
  {
    seq(|f.categories|, _ => CategoryChip) +
    (if ShowPriceChip(f) then [PriceChip] else []) +
    (if Positive(f.minRating) then [RatingChip] else []) +
    (if f.inStockOnly then [StockChip] else [])
  }

  /** The search does not count as a filter: the defaults with any query have
      none, and clearing everything leaves none. */
  lemma SearchIsNotAFilter(query: string, prev: Filters)
    ensures !HasFilters(DefaultFilters.(searchQuery := query))
    ensures !HasFilters(Merge(prev, ClearAll))
  {
    ClearAllRestoresDefaults(prev);
  }

  /** A chip is shown for that filter: a category chip for each selected
      category, and one chip each for the price, the rating and the stock
      filter when active. */
  predicate ChipShown(f: Filters, kind: FilterKind, value: string) {
    match kind
    case CategoryChip => value in f.categories
    case PriceChip => ShowPriceChip(f)
    case RatingChip => Positive(f.minRating)
    case StockChip => f.inStockOnly
  }

  /** A chip's remove button as the page handles it: `removeFilter` passes the
      chip's reset update to `updateFilters`, and the URL effect follows when
      the parameters change. The filters and parameters it leaves. */
  function RemoveChip(f: Filters, params: Params, kind: FilterKind, value: string): (Filters, Params) {
    var u := RemoveUpdate(kind, value, f);
    (Settle(f, params, u), UrlOf(u))
  }

  /** Removing a chip through the page takes that chip away and adds none, so
      fewer chips remain. The URL it writes never carries the search. So when
      the URL changes, the effect resets the search to ""; otherwise the
      search is kept. */
  lemma RemoveChipThroughPage(f: Filters, params: Params, kind: FilterKind, value: string)
    ensures !ChipShown(RemoveChip(f, params, kind, value).0, kind, value)
    ensures ChipShown(f, kind, value) ==> |Chips(RemoveChip(f, params, kind, value).0)| < |Chips(f)|
    ensures var u, g := RemoveUpdate(kind, value, f), RemoveChip(f, params, kind, value).0;
            (UrlOf(u) != params ==> g.searchQuery == "") && (UrlOf(u) == params ==> g.searchQuery == f.searchQuery)
  {
    var u := RemoveUpdate(kind, value, f);
    var merged := Merge(f, u);
    var g := RemoveChip(f, params, kind, value).0;
    assert "search" !in UrlOf(u);
    if kind == CategoryChip && value in f.categories {
      WithoutShorter(f.categories, value);
      assert |g.categories| <= |merged.categories| < |f.categories|;
    }
  }

  /** The user removes the first chip shown, again and again, until none is
      left: the filters and parameters at the end. */
  function ClearChips(f: Filters, params: Params): (Filters, Params)
    decreases |Chips(f)|
  {
    var kind := if |f.categories| > 0 then CategoryChip
                else if ShowPriceChip(f) then PriceChip
                else if Positive(f.minRating) then RatingChip
                else StockChip;
    var value := if |f.categories| > 0 then f.categories[0] else "";
    if ChipShown(f, kind, value) then
      RemoveChipThroughPage(f, params, kind, value);
      var next := RemoveChip(f, params, kind, value);
      ClearChips(next.0, next.1)
    else (f, params)
  }

  /** Removing every chip the summary shows leaves no filter active. The
      search either survives or is reset to "", never anything else: it is
      reset as soon as one removal changes the URL. */
  lemma {:induction false} RemovingChipsClearsFilters(f: Filters, params: Params)
    ensures var g := ClearChips(f, params).0;
            !HasFilters(g) && (g.searchQuery == f.searchQuery || g.searchQuery == "")
    decreases |Chips(f)|
  {
    var kind := if |f.categories| > 0 then CategoryChip
                else if ShowPriceChip(f) then PriceChip
                else if Positive(f.minRating) then RatingChip
                else StockChip;
    var value := if |f.categories| > 0 then f.categories[0] else "";
    if ChipShown(f, kind, value) {
      RemoveChipThroughPage(f, params, kind, value);
      var next := RemoveChip(f, params, kind, value);
      RemovingChipsClearsFilters(next.0, next.1);
    }
  }
}
