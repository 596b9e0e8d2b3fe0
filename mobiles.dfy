/**
 * The mobiles catalogue page: the fixed product list, the filter chain, the
 * four sort orders, six-item pages and the page navigation.
 */
module Mobiles {
  import opened Wrappers
  import opened ListOps
  import opened JsText
  import opened MobileFilters
  import Json

  /** A phone. `ratingTenths` is the star rating times ten (4.8 is 48). */
  datatype Mobile = Mobile(
    id: nat,
    brand: string,
    price: int,
    os: string,
    features: seq<string>,
    ratingTenths: nat,
    reviews: nat,
    inStock: bool,
    stockCount: Option<int>,
    isNew: bool,
    isHot: bool)

  const MobilesData: seq<Mobile> := [
    Mobile(1, "Apple", 139900, "iOS", ["5G", "A17 Pro", "OLED", "48MP"], 48, 247, true, Some(5), true, false),
    Mobile(2, "Samsung", 124999, "Android", ["5G", "Snapdragon 8 Gen 2", "AMOLED", "200MP"], 47, 189, true, None, false, false),
    Mobile(3, "Xiaomi", 79999, "Android", ["5G", "Snapdragon 8 Gen 2", "AMOLED", "Leica Optics"], 45, 102, true, None, false, true),
    Mobile(4, "Google", 69999, "Android", ["5G", "Tensor G2", "OLED", "48MP"], 46, 112, true, None, false, false),
    Mobile(5, "OnePlus", 56999, "Android", ["5G", "Snapdragon 8 Gen 2", "AMOLED", "50MP"], 45, 98, true, None, false, false),
    Mobile(6, "Apple", 69900, "iOS", ["5G", "A15 Bionic", "OLED"], 46, 156, false, None, false, false),
    Mobile(7, "Samsung", 38999, "Android", ["5G", "Exynos 1380", "AMOLED"], 43, 84, true, Some(2), false, false),
    Mobile(8, "Nothing", 44999, "Android", ["5G", "Snapdragon 8+ Gen 1", "OLED", "Glyph Interface"], 44, 75, true, None, true, false),
    Mobile(9, "Motorola", 29999, "Android", ["5G", "Dimensity 8020", "OLED"], 42, 63, true, None, false, false)
  ]

  datatype SortOption = PriceLow | PriceHigh | Newest | BestSelling

  const ItemsPerPage: nat := 6

  /** `Math.ceil(MOBILES_DATA.length / itemsPerPage)`: counted on the whole catalogue. */
  const TotalPages: nat := CeilDiv(|MobilesData|, ItemsPerPage)

  // ---------------------------------------------------------------- filtering

  /** `range.split('-').map(parseInt)`: both bounds, or `None` when either is `NaN`. */
  function Bounds(range: string): Option<(int, int)>
  {
    var parts := Split(range, '-');
    if |parts| < 2 then None
    else match (ParseInt(parts[0]), ParseInt(parts[1]))
      case (Some(lo), Some(hi)) => Some((lo, hi))
      case _ => None
  }

  /** `mobile.price >= min && mobile.price <= max`; a `NaN` bound makes it false. */
  predicate InRange(price: int, range: string)
  {
    match Bounds(range)
    case Some((lo, hi)) => lo <= price <= hi
    case None => false
  }

  predicate BrandSelected(brands: seq<string>, m: Mobile) { m.brand in brands }

  predicate OsSelected(os: seq<string>, m: Mobile) { m.os in os }

  predicate SomeFeatureSelected(features: seq<string>, m: Mobile)
  {
    exists feature :: feature in m.features && feature in features
  }

  predicate SomePriceRangeSelected(priceRanges: seq<string>, m: Mobile)
  {
    exists range :: range in priceRanges && InRange(m.price, range)
  }

  /** A product passes when every non-empty filter category accepts it. */
  predicate Matches(f: FilterState, m: Mobile)
  {
    && (|f.brands| == 0 || BrandSelected(f.brands, m))
    && (|f.os| == 0 || OsSelected(f.os, m))
    && (|f.features| == 0 || SomeFeatureSelected(f.features, m))
    && (|f.priceRanges| == 0 || SomePriceRangeSelected(f.priceRanges, m))
  }

  function MatchesOf(f: FilterState): Mobile -> bool
  {
    m => Matches(f, m)
  }

  /** The products the filters keep, in catalogue order. */
  function Filtered(data: seq<Mobile>, f: FilterState): seq<Mobile>
  {
    Filter(data, MatchesOf(f))
  }

  // ---------------------------------------------------------------- sorting

  function PriceKey(m: Mobile): int { m.price }
  function NegPriceKey(m: Mobile): int { -m.price }
  /** `b.rating * b.reviews - a.rating * a.reviews` sorts by the popularity score, largest first. */
  function NegPopularityKey(m: Mobile): int { -(m.ratingTenths * m.reviews) }
  predicate IsNewItem(m: Mobile) { m.isNew }
  predicate NotNewItem(m: Mobile) { !m.isNew }

  /** The `switch (sortBy)` applied to the filtered list. */
  function Arrange(s: seq<Mobile>, sortBy: SortOption): seq<Mobile>
  {
    match sortBy
    case PriceLow => SortBy(s, PriceKey)
    case PriceHigh => SortBy(s, NegPriceKey)
    case Newest => Filter(s, IsNewItem) + Filter(s, NotNewItem)
    case BestSelling => SortBy(s, NegPopularityKey)
  }

  /**
   * `filteredAndSortedProducts`: narrows a copy of the catalogue one
   * non-empty category at a time, then orders it.
   */
  method FilteredAndSortedProducts(data: seq<Mobile>, filters: FilterState, sortBy: SortOption)
    returns (result: seq<Mobile>)
    ensures result == Arrange(Filtered(data, filters), sortBy)
  {
    ghost var byBrand := (m: Mobile) => |filters.brands| == 0 || BrandSelected(filters.brands, m);
    ghost var byOs := (m: Mobile) => byBrand(m) && (|filters.os| == 0 || OsSelected(filters.os, m));
    ghost var byFeature :=
      (m: Mobile) => byOs(m) && (|filters.features| == 0 || SomeFeatureSelected(filters.features, m));

    result := data;
    if |filters.brands| > 0 {
      var keep := (m: Mobile) => BrandSelected(filters.brands, m);
      result := Filter(result, keep);
      FilterExt(data, keep, byBrand);
    } else {
      FilterKeepsAll(data, byBrand);
    }

    if |filters.os| > 0 {
      var keep := (m: Mobile) => OsSelected(filters.os, m);
      result := Filter(result, keep);
      FilterFilter(data, byBrand, keep, byOs);
    } else {
      FilterExt(data, byBrand, byOs);
    }

    if |filters.features| > 0 {
      var keep := (m: Mobile) => SomeFeatureSelected(filters.features, m);
      result := Filter(result, keep);
      FilterFilter(data, byOs, keep, byFeature);
    } else {
      FilterExt(data, byOs, byFeature);
    }

    if |filters.priceRanges| > 0 {
      var keep := (m: Mobile) => SomePriceRangeSelected(filters.priceRanges, m);
      result := Filter(result, keep);
      FilterFilter(data, byFeature, keep, MatchesOf(filters));
    } else {
      FilterExt(data, byFeature, MatchesOf(filters));
    }

    match sortBy {
      case PriceLow => result := SortBy(result, PriceKey);
      case PriceHigh => result := SortBy(result, NegPriceKey);
      case Newest => result := Filter(result, IsNewItem) + Filter(result, NotNewItem);
      case BestSelling => result := SortBy(result, NegPopularityKey);
    }
  }

  /**
   * Filtering keeps exactly the matching products and neither adds nor
   * reorders any; with no filter selected it keeps the whole catalogue.
   */
  lemma FilteredSpec(data: seq<Mobile>, f: FilterState)
    ensures Subsequence(Filtered(data, f), data)
    ensures forall m :: m in Filtered(data, f) <==> m in data && Matches(f, m)
    ensures f == EmptyFilters ==> Filtered(data, f) == data
  {
    FilterIsSubsequence(data, MatchesOf(f));
    if f == EmptyFilters {
      FilterKeepsAll(data, MatchesOf(f));
    }
  }

  /** A sequence none of whose elements passes `p` has nothing left after filtering. */
  lemma FilterNone(s: seq<Mobile>, p: Mobile -> bool)
    requires forall m :: m in s ==> !p(m)
    ensures Filter(s, p) == []
  {
    if Filter(s, p) != [] {
      assert Filter(s, p)[0] in Filter(s, p);
    }
  }

  /**
   * Every sort option returns a rearrangement of the filtered list; the price
   * sorts and "best-selling" are ordered by their key, and "newest" puts every
   * new phone first, keeping the order inside both groups.
   */
  lemma ArrangeSpec(s: seq<Mobile>, sortBy: SortOption)
    ensures multiset(Arrange(s, sortBy)) == multiset(s)
    ensures sortBy == PriceLow ==> forall i, j :: 0 <= i < j < |Arrange(s, sortBy)| ==>
      Arrange(s, sortBy)[i].price <= Arrange(s, sortBy)[j].price
    ensures sortBy == PriceHigh ==> forall i, j :: 0 <= i < j < |Arrange(s, sortBy)| ==>
      Arrange(s, sortBy)[i].price >= Arrange(s, sortBy)[j].price
    ensures sortBy == BestSelling ==> forall i, j :: 0 <= i < j < |Arrange(s, sortBy)| ==>
      Arrange(s, sortBy)[i].ratingTenths * Arrange(s, sortBy)[i].reviews
        >= Arrange(s, sortBy)[j].ratingTenths * Arrange(s, sortBy)[j].reviews
    ensures sortBy == Newest ==>
      && (forall i, j :: 0 <= i < j < |Arrange(s, sortBy)| && Arrange(s, sortBy)[j].isNew ==>
            Arrange(s, sortBy)[i].isNew)
      && Filter(Arrange(s, sortBy), IsNewItem) == Filter(s, IsNewItem)
      && Filter(Arrange(s, sortBy), NotNewItem) == Filter(s, NotNewItem)
  {
    var r := Arrange(s, sortBy);
    match sortBy {
      case PriceLow =>
      case PriceHigh =>
        assert forall i, j :: 0 <= i < j < |r| ==> NegPriceKey(r[i]) <= NegPriceKey(r[j]);
      case BestSelling =>
        assert forall i, j :: 0 <= i < j < |r| ==> NegPopularityKey(r[i]) <= NegPopularityKey(r[j]);
      case Newest =>
        var newOnes, others := Filter(s, IsNewItem), Filter(s, NotNewItem);
        PartitionIsPermutation(s, IsNewItem, NotNewItem);
        forall k | 0 <= k < |r|
          ensures r[k].isNew <==> k < |newOnes|
        {
          if k < |newOnes| {
            assert r[k] == newOnes[k] && newOnes[k] in newOnes;
          } else {
            assert r[k] == others[k - |newOnes|] && others[k - |newOnes|] in others;
          }
        }
        FilterConcat(newOnes, others, IsNewItem);
        FilterConcat(newOnes, others, NotNewItem);
        FilterFilter(s, IsNewItem, IsNewItem, IsNewItem);
        FilterFilter(s, NotNewItem, NotNewItem, NotNewItem);
        FilterNone(others, IsNewItem);
        FilterNone(newOnes, NotNewItem);
    }
  }

  // ---------------------------------------------------------------- pages

  /** `slice(startIndex, endIndex)` of the ordered list for a page number. */
  function PageItems(result: seq<Mobile>, page: int): seq<Mobile>
    requires page >= 1
  {
    Slice(result, (page - 1) * ItemsPerPage, page * ItemsPerPage)
  }

  /** A page shows at most six products: the ones at positions `(page-1)*6` onwards. */
  lemma PageItemsSpec(result: seq<Mobile>, page: int)
    requires page >= 1
    ensures |PageItems(result, page)| <= ItemsPerPage
    ensures forall k :: 0 <= k < |PageItems(result, page)| ==>
      (page - 1) * ItemsPerPage + k < |result| && PageItems(result, page)[k] == result[(page - 1) * ItemsPerPage + k]
    ensures (page - 1) * ItemsPerPage < |result| ==> PageItems(result, page) != []
  {
  }

  lemma TotalPagesIsTwo()
    ensures TotalPages == 2
  {
  }

  /** The page's state: the chosen filters, sort order and page number. */
  datatype View = View(filters: FilterState, sortBy: SortOption, page: int)

  const InitialView := View(EmptyFilters, BestSelling, 1)

  /** What the user can do on the page. `GoToPage(i)` is the `i`-th page link, showing `i + 1`. */
  datatype Event =
    | FilterChange(newFilters: FilterState)
    | SortChange(option: SortOption)
    | Previous
    | Next
    | GoToPage(i: int)
    | ClearFromEmptyState

  /** Page links exist for `i` in `0 .. totalPages - 1` only. */
  predicate Renderable(e: Event)
  {
    e.GoToPage? ==> 0 <= e.i < TotalPages
  }

  /** The state after one event. */
  function Step(v: View, e: Event): View
  {
    match e
    case FilterChange(f) => v.(filters := f, page := 1)
    case SortChange(o) => v.(sortBy := o, page := 1)
    case Previous => v.(page := Max(1, v.page - 1))
    case Next => v.(page := Min(TotalPages, v.page + 1))
    case GoToPage(i) => v.(page := i + 1)
    case ClearFromEmptyState => v.(filters := EmptyFilters)
  }

  function Run(v: View, events: seq<Event>): View
    decreases |events|
  {
    if events == [] then v else Run(Step(v, events[0]), events[1..])
  }

  /** What the product grid shows. */
  function Displayed(v: View): seq<Mobile>
    requires v.page >= 1
  {
    PageItems(Arrange(Filtered(MobilesData, v.filters), v.sortBy), v.page)
  }

  predicate PageInRange(v: View) { 1 <= v.page <= TotalPages }

  /**
   * Every event keeps the page between 1 and `totalPages`; a filter or sort
   * change goes back to page 1, while "Clear All Filters" in the empty state
   * keeps the current page.
   */
  lemma StepSpec(v: View, e: Event)
    requires PageInRange(v) && Renderable(e)
    ensures PageInRange(Step(v, e))
    ensures e.FilterChange? ==> Step(v, e) == View(e.newFilters, v.sortBy, 1)
    ensures e.SortChange? ==> Step(v, e) == View(v.filters, e.option, 1)
    ensures e.ClearFromEmptyState? ==> Step(v, e) == View(EmptyFilters, v.sortBy, v.page)
    ensures e.Previous? ==> Step(v, e).page == if v.page > 1 then v.page - 1 else 1
    ensures e.Next? ==> Step(v, e).page == if v.page < TotalPages then v.page + 1 else TotalPages
  {
  }

  /** However the user clicks, the page number stays between 1 and `totalPages`. */
  lemma {:induction false} RunKeepsPageInRange(v: View, events: seq<Event>)
    requires PageInRange(v)
    requires forall k :: 0 <= k < |events| ==> Renderable(events[k])
    ensures PageInRange(Run(v, events))
    decreases |events|
  {
    if events != [] {
      StepSpec(v, events[0]);
      RunKeepsPageInRange(Step(v, events[0]), events[1..]);
    }
  }

  /**
   * Because `totalPages` counts the whole catalogue, the second page is
   * reachable and empty whenever the chosen filters keep between one and six
   * phones: "No products found" then shows although products match.
   */
  lemma SecondPageCanBeEmpty(v: View, f: FilterState)
    requires 1 <= |Filtered(MobilesData, f)| <= ItemsPerPage
    ensures var w := Run(v, [FilterChange(f), Next]);
      && w.page == 2
      && Displayed(w) == []
  {
    TotalPagesIsTwo();
    var events := [FilterChange(f), Next];
    assert events[1..] == [Next];
    assert [Next][1..] == [];
    var w := Step(Step(v, FilterChange(f)), Next);
    assert Run(v, events) == Run(Step(v, FilterChange(f)), [Next]) == Run(w, []) == w;
    ArrangeSpec(Filtered(MobilesData, f), w.sortBy);
    assert |Arrange(Filtered(MobilesData, f), w.sortBy)| == |Filtered(MobilesData, f)| by {
      assert |multiset(Arrange(Filtered(MobilesData, f), w.sortBy))| == |multiset(Filtered(MobilesData, f))|;
    }
  }

  // ---------------------------------------------------------------- badges

  /** The `stockCount` property as the product object holds it: `undefined` when absent. */
  function CountJson(m: Mobile): Option<Json.Json>
  {
    match m.stockCount
    case Some(n) => Some(Json.JNum(n as real))
    case None => None
  }

  /** `mobile.stockCount && mobile.stockCount <= 5`, with JavaScript's truthiness. */
  predicate LowStockBadge(m: Mobile)
  {
    Json.Truthy(CountJson(m)) && m.stockCount.value <= 5
  }

  /**
   * The badge appears exactly for a known, non-zero count of at most five: a
   * count of 0 is falsy and shows nothing, and so does a phone without a count.
   */
  lemma LowStockBadgeSpec(m: Mobile)
    ensures LowStockBadge(m) <==> m.stockCount.Some? && m.stockCount.value != 0 && m.stockCount.value <= 5
    ensures LowStockBadge(m) && m.stockCount.value >= 0 ==> 1 <= m.stockCount.value <= 5
  {
  }

  /**
   * A range value `"lo-hi"` keeps exactly the prices from `lo` to `hi`, both
   * ends included.
   */
  lemma InRangeSpec(price: int, lo: string, hi: string)
    requires AllDigits(lo) && lo != "" && AllDigits(hi) && hi != ""
    ensures InRange(price, lo + "-" + hi) <==> DecimalValue(lo) <= price <= DecimalValue(hi)
  {
    NoNonDigit(lo, '-');
    NoNonDigit(hi, '-');
    SplitPair(lo, '-', hi);
    ParseIntOfDigits(lo);
    ParseIntOfDigits(hi);
  }

  /** A price on the boundary shared by two neighbouring ranges is kept by both. */
  lemma SharedBoundaryMatchesBoth(lo: string, mid: string, hi: string)
    requires AllDigits(lo) && lo != "" && AllDigits(mid) && mid != "" && AllDigits(hi) && hi != ""
    requires DecimalValue(lo) <= DecimalValue(mid) <= DecimalValue(hi)
    ensures InRange(DecimalValue(mid), lo + "-" + mid)
    ensures InRange(DecimalValue(mid), mid + "-" + hi)
  {
    InRangeSpec(DecimalValue(mid), lo, mid);
    InRangeSpec(DecimalValue(mid), mid, hi);
  }
}
