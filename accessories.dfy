/**
 * The accessories page: the fixed product list, its filter, six-item pages,
 * the page navigation and the star rating.
 */
module Accessories {
  import opened Wrappers
  import opened ListOps
  import opened AccessoriesFilters

  /** An accessory. `ratingTenths` is the star rating times ten (4.5 is 45). */
  datatype Accessory = Accessory(
    id: nat,
    price: int,
    category: string,
    brand: string,
    ratingTenths: nat,
    reviews: nat,
    inStock: bool,
    isNew: bool,
    isHot: bool)

  const AccessoriesData: seq<Accessory> := [
    Accessory(1, 999, "Chargers", "Apple", 45, 128, true, true, false),
    Accessory(2, 1299, "Cases", "Tiara", 48, 86, true, false, true),
    Accessory(3, 3999, "Earphones", "Boat", 46, 215, true, false, false),
    Accessory(4, 499, "Screen Guards", "Tiara", 43, 94, true, false, false),
    Accessory(5, 4999, "Smartwatches", "Samsung", 47, 152, true, true, false),
    Accessory(6, 799, "Cables", "Tiara", 44, 67, false, false, false),
    Accessory(7, 1499, "Power Banks", "Xiaomi", 48, 203, true, false, true),
    Accessory(8, 1299, "Chargers", "Samsung", 45, 89, true, false, false),
    Accessory(9, 2499, "Earphones", "Boat", 42, 76, true, false, false)
  ]

  const ItemsPerPage: nat := 6

  // ---------------------------------------------------------------- filtering

  /**
   * The `filteredAccessories` predicate: a non-empty category or brand list
   * must contain the item's, and a non-null flag must equal its stock state.
   * The price ranges are not consulted.
   */
  predicate Keep(f: FilterState, item: Accessory)
  {
    && !(|f.categories| > 0 && item.category !in f.categories)
    && !(|f.brands| > 0 && item.brand !in f.brands)
    && !(f.inStock.Some? && item.inStock != f.inStock.value)
  }

  function KeepOf(f: FilterState): Accessory -> bool
  {
    item => Keep(f, item)
  }

  function Filtered(data: seq<Accessory>, f: FilterState): seq<Accessory>
  {
    Filter(data, KeepOf(f))
  }

  /**
   * The list keeps, in order, exactly the items whose category and brand are
   * selected (or not restricted) and whose stock state matches a set flag.
   */
  lemma FilteredSpec(data: seq<Accessory>, f: FilterState)
    ensures Subsequence(Filtered(data, f), data)
    ensures forall item :: item in Filtered(data, f) <==>
      && item in data
      && (f.categories == [] || item.category in f.categories)
      && (f.brands == [] || item.brand in f.brands)
      && (f.inStock == None || f.inStock == Some(item.inStock))
    ensures f == EmptyFilters ==> Filtered(data, f) == data
  {
    FilterIsSubsequence(data, KeepOf(f));
    if f == EmptyFilters {
      FilterKeepsAll(data, KeepOf(f));
    }
  }

  /** Ticking price ranges changes nothing in the list. */
  lemma PriceRangesIgnored(data: seq<Accessory>, f: FilterState, priceRanges: seq<string>)
    ensures Filtered(data, f.(priceRanges := priceRanges)) == Filtered(data, f)
  {
    FilterExt(data, KeepOf(f.(priceRanges := priceRanges)), KeepOf(f));
  }

  // ---------------------------------------------------------------- pages

  /** `Math.ceil(filteredAccessories.length / itemsPerPage)`. */
  function TotalPages(f: FilterState): nat
  {
    CeilDiv(|Filtered(AccessoriesData, f)|, ItemsPerPage)
  }

  /** `filteredAccessories.slice(start, end)`. */
  function PageItems(filtered: seq<Accessory>, page: int): seq<Accessory>
    requires page >= 1
  {
    Slice(filtered, (page - 1) * ItemsPerPage, page * ItemsPerPage)
  }

  /**
   * A page holds at most six items, those from position `(page-1)*6` on;
   * every page up to `totalPages` is non-empty and no later one is.
   */
  lemma PageItemsSpec(filtered: seq<Accessory>, page: int)
    requires page >= 1
    ensures |PageItems(filtered, page)| <= ItemsPerPage
    ensures forall k :: 0 <= k < |PageItems(filtered, page)| ==>
      (page - 1) * ItemsPerPage + k < |filtered|
      && PageItems(filtered, page)[k] == filtered[(page - 1) * ItemsPerPage + k]
    ensures PageItems(filtered, page) != [] <==> page <= CeilDiv(|filtered|, ItemsPerPage)
  {
    var total := CeilDiv(|filtered|, ItemsPerPage);
    if page <= total {
      assert (page - 1) * ItemsPerPage <= (total - 1) * ItemsPerPage;
    } else {
      assert total * ItemsPerPage <= (page - 1) * ItemsPerPage;
    }
  }

  datatype View = View(filters: FilterState, page: int)

  const InitialView := View(EmptyFilters, 1)

  datatype Event =
    | FilterChange(newFilters: FilterState)
    | Previous
    | Next
    | GoToPage(i: int)
    | ClearFromEmptyState

  /**
   * The page links are `0 .. totalPages - 1`, and the empty-state button is
   * shown only when nothing matches.
   */
  predicate Renderable(v: View, e: Event)
  {
    && (e.GoToPage? ==> 0 <= e.i < TotalPages(v.filters))
    && (e.ClearFromEmptyState? ==> Filtered(AccessoriesData, v.filters) == [])
  }

  function Step(v: View, e: Event): View
  {
    match e
    case FilterChange(f) => View(f, 1)
    case Previous => if v.page > 1 then v.(page := v.page - 1) else v
    case Next => if v.page < TotalPages(v.filters) then v.(page := v.page + 1) else v
    case GoToPage(i) => v.(page := i + 1)
    case ClearFromEmptyState => v.(filters := EmptyFilters)
  }

  /** The page is a real page, or page 1 when nothing matches. */
  predicate PageInRange(v: View)
  {
    1 <= v.page <= Max(1, TotalPages(v.filters))
  }

  /**
   * A filter change goes back to page 1; "previous" acts only above page 1
   * and "next" only below `totalPages`; every shown control keeps the page in
   * range.
   */
  lemma StepSpec(v: View, e: Event)
    requires PageInRange(v) && Renderable(v, e)
    ensures PageInRange(Step(v, e))
    ensures e.FilterChange? ==> Step(v, e) == View(e.newFilters, 1)
    ensures e.Previous? ==> Step(v, e).page == (if v.page > 1 then v.page - 1 else v.page)
    ensures e.Next? ==> Step(v, e).page == (if v.page < TotalPages(v.filters) then v.page + 1 else v.page)
    ensures e.ClearFromEmptyState? ==> Step(v, e) == View(EmptyFilters, 1)
  {
    if e.ClearFromEmptyState? {
      assert TotalPages(v.filters) == 0;
      assert |Filtered(AccessoriesData, EmptyFilters)| == 9 by {
        FilteredSpec(AccessoriesData, EmptyFilters);
      }
    }
  }

  function Run(v: View, events: seq<Event>): View
    decreases |events|
  {
    if events == [] then v else Run(Step(v, events[0]), events[1..])
  }

  /** Every event of the run is on a control shown at the time it is clicked. */
  predicate Admissible(v: View, events: seq<Event>)
    decreases |events|
  {
    events == [] || (Renderable(v, events[0]) && Admissible(Step(v, events[0]), events[1..]))
  }

  /** A run of clicks on shown controls never leaves the page range. */
  lemma {:induction false} RunKeepsPageInRange(v: View, events: seq<Event>)
    requires PageInRange(v) && Admissible(v, events)
    ensures PageInRange(Run(v, events))
    decreases |events|
  {
    if events != [] {
      StepSpec(v, events[0]);
      RunKeepsPageInRange(Step(v, events[0]), events[1..]);
    }
  }

  // ---------------------------------------------------------------- stars

  datatype Star = Full | Half | Empty

  /**
   * `renderStars(rating)`: `floor(rating)` full stars, a half star when the
   * fraction is at least .5, then empty stars up to five in all.
   */
  method RenderStars(ratingTenths: nat) returns (stars: seq<Star>)
    ensures var full, half := ratingTenths / 10, if ratingTenths % 10 >= 5 then 1 else 0;
      && |stars| == Max(5, full + half)
      && (forall k :: 0 <= k < full ==> stars[k] == Full)
      && (half == 1 <==> Half in stars)
      && (half == 1 ==> stars[full] == Half)
      && (forall k :: full + half <= k < |stars| ==> stars[k] == Empty)
    ensures ratingTenths <= 50 ==> |stars| == 5
  {
    stars := [];
    var fullStars := ratingTenths / 10;
    var halfStar := ratingTenths % 10 >= 5;
    var i := 0;
    while i < fullStars
      invariant 0 <= i <= fullStars
      invariant stars == seq(i, _ => Full)
    {
      stars := stars + [Full];
      i := i + 1;
    }
    if halfStar {
      stars := stars + [Half];
    }
    ghost var filled := stars;
    var emptyStars := 5 - |stars|;
    i := 0;
    while i < emptyStars
      invariant 0 <= i <= Max(0, emptyStars)
      invariant stars == filled + seq(i, _ => Empty)
    {
      stars := stars + [Empty];
      i := i + 1;
    }
    assert forall k :: 0 <= k < |filled| ==> stars[k] == filled[k];
  }
}
