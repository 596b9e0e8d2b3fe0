/**
 * The filter panel of the accessories page: three lists of selected options
 * and a three-valued "in stock" flag (`true`, `false` or `null`).
 */
module AccessoriesFilters {
  import opened Wrappers
  import opened ListOps

  /** `inStock` is `None` for `null`. */
  datatype FilterState = FilterState(
    categories: seq<string>,
    brands: seq<string>,
    priceRanges: seq<string>,
    inStock: Option<bool>)

  datatype Category = Categories | Brands | PriceRanges | InStock

  /** The `string | boolean` argument of `updateFilter`. */
  datatype Item = Text(text: string) | Flag(flag: bool)

  const EmptyFilters := FilterState([], [], [], None)

  /** The values of the price checkboxes. */
  const PriceRangeValues: seq<string> := ["0-500", "500-1000", "1000-2000", "2000-5000", "5000-1000000"]

  /** `state[category]` for the three list categories. */
  function GetList(state: FilterState, category: Category): seq<string>
    requires category != InStock
  {
    match category
    case Categories => state.categories
    case Brands => state.brands
    case PriceRanges => state.priceRanges
  }

  /** `{ ...state, [category]: list }` for a list category. */
  function SetList(state: FilterState, category: Category, list: seq<string>): (r: FilterState)
    requires category != InStock
    ensures GetList(r, category) == list
    ensures forall c :: c != InStock && c != category ==> GetList(r, c) == GetList(state, c)
    ensures r.inStock == state.inStock
  {
    match category
    case Categories => state.(categories := list)
    case Brands => state.(brands := list)
    case PriceRanges => state.(priceRanges := list)
  }

  /** `item === true ? true : item === false ? false : null`. */
  function InStockValue(item: Item): (r: Option<bool>)
    ensures item == Flag(true) <==> r == Some(true)
    ensures item == Flag(false) <==> r == Some(false)
    ensures item.Text? <==> r == None
  {
    match item
    case Flag(b) => Some(b)
    case Text(_) => None
  }

  /** What one update passes to `setLocalFilters` and to `onFilterChange`. */
  datatype Emission = Emission(local: FilterState, reported: FilterState)

  /**
   * `updateFilter(category, item)`: the flag is set from the item, a list
   * toggles the option. Every call site of a list category passes an option
   * string.
   */
  function UpdateFilter(local: FilterState, category: Category, item: Item): (e: Emission)
    requires category != InStock ==> item.Text?
    ensures e.local == e.reported
    ensures category == InStock ==>
      e.local == local.(inStock := InStockValue(item))
    ensures category != InStock ==>
      && e.local.inStock == local.inStock
      && (forall c :: c != InStock && c != category ==> GetList(e.local, c) == GetList(local, c))
      && (item.text !in GetList(local, category) ==>
            GetList(e.local, category) == GetList(local, category) + [item.text])
      && (item.text in GetList(local, category) ==>
            && item.text !in GetList(e.local, category)
            && Subsequence(GetList(e.local, category), GetList(local, category))
            && forall y :: y != item.text ==>
                 multiset(GetList(e.local, category))[y] == multiset(GetList(local, category))[y])
  {
    if category == InStock then
      var next := local.(inStock := InStockValue(item));
      Emission(next, next)
    else
      var current := GetList(local, category);
      var next := SetList(local, category, Toggle(current, item.text));
      if item.text in current then
        TogglePresentRemovesAll(current, item.text);
        Emission(next, next)
      else Emission(next, next)
  }

  /** `clearAllFilters`. */
  function ClearAllFilters(): (e: Emission)
    ensures e.local == e.reported
    ensures e.local.inStock == None
    ensures forall c :: c != InStock ==> GetList(e.local, c) == []
  {
    Emission(EmptyFilters, EmptyFilters)
  }

  /** Whether "Clear all filters" is rendered. */
  predicate ShowClearButton(local: FilterState)
  {
    |local.categories| > 0 || |local.brands| > 0 || |local.priceRanges| > 0 || local.inStock != None
  }

  /** The clear button is shown exactly when something is selected, and clearing hides it. */
  lemma ShowClearButtonIffSelected(local: FilterState)
    ensures ShowClearButton(local) <==> local != EmptyFilters
    ensures !ShowClearButton(ClearAllFilters().local)
  {
  }

  /** What the user does in the panel. The availability checkbox always sends `true`. */
  datatype Click =
    | ToggleOption(category: Category, option: string)
    | AvailabilityClick
    | ClearAll

  predicate WellFormed(c: Click) { c.ToggleOption? ==> c.category != InStock }

  function Apply(local: FilterState, c: Click): FilterState
    requires WellFormed(c)
  {
    match c
    case ToggleOption(category, option) => UpdateFilter(local, category, Text(option)).local
    case AvailabilityClick => UpdateFilter(local, InStock, Flag(true)).local
    case ClearAll => ClearAllFilters().local
  }

  function ApplyAll(local: FilterState, clicks: seq<Click>): FilterState
    requires forall k :: 0 <= k < |clicks| ==> WellFormed(clicks[k])
    decreases |clicks|
  {
    if clicks == [] then local else ApplyAll(Apply(local, clicks[0]), clicks[1..])
  }

  /**
   * Once "In Stock Only" has been clicked the flag stays `true` however often
   * it is clicked again or options are toggled; only "clear all" resets it.
   */
  lemma {:induction false} InStockStaysTrueUntilClear(local: FilterState, clicks: seq<Click>)
    requires forall k :: 0 <= k < |clicks| ==> WellFormed(clicks[k])
    requires local.inStock == Some(true) || (clicks != [] && clicks[0] == AvailabilityClick)
    requires ClearAll !in clicks
    ensures ApplyAll(local, clicks).inStock == Some(true)
    decreases |clicks|
  {
    if clicks != [] {
      assert clicks[0] != ClearAll;
      var next := Apply(local, clicks[0]);
      assert next.inStock == Some(true);
      assert clicks == [clicks[0]] + clicks[1..];
      InStockStaysTrueUntilClear(next, clicks[1..]);
    }
  }

  /** Ticking an unticked option and then unticking it gives back the state it started from. */
  lemma UpdateFilterTwiceRestores(local: FilterState, category: Category, option: string)
    requires category != InStock && option !in GetList(local, category)
    ensures UpdateFilter(UpdateFilter(local, category, Text(option)).local, category, Text(option)).local == local
  {
    ToggleTwiceRestores(GetList(local, category), option);
  }
}
