/**
 * The filter panel of the mobiles page: four lists of selected options, a
 * checkbox that toggles one option in or out of its list, and "clear all".
 * Every update hands one new state both to the panel's own copy and to the
 * page.
 */
module MobileFilters {
  import opened ListOps

  datatype FilterState = FilterState(
    brands: seq<string>,
    priceRanges: seq<string>,
    os: seq<string>,
    features: seq<string>)

  /** The keys of a filter state that `updateFilter` may name. */
  datatype Category = Brands | PriceRanges | Os | Features

  const EmptyFilters := FilterState([], [], [], [])

  /** The values of the price checkboxes. */
  const PriceRangeValues: seq<string> :=
    ["5000-10000", "10000-20000", "20000-40000", "40000-70000", "70000-1000000"]

  /** `state[category]`. */
  function Get(state: FilterState, category: Category): seq<string>
  {
    match category
    case Brands => state.brands
    case PriceRanges => state.priceRanges
    case Os => state.os
    case Features => state.features
  }

  /** `{ ...state, [category]: list }`. */
  function Set(state: FilterState, category: Category, list: seq<string>): (r: FilterState)
    ensures Get(r, category) == list
    ensures forall c :: c != category ==> Get(r, c) == Get(state, c)
  {
    match category
    case Brands => state.(brands := list)
    case PriceRanges => state.(priceRanges := list)
    case Os => state.(os := list)
    case Features => state.(features := list)
  }

  /** What one update passes to `setLocalFilters` and to `onFilterChange`. */
  datatype Emission = Emission(local: FilterState, reported: FilterState)

  /** `updateFilter(category, item)`. */
  function UpdateFilter(local: FilterState, category: Category, item: string): (e: Emission)
    ensures e.local == e.reported
    ensures item !in Get(local, category) ==> Get(e.local, category) == Get(local, category) + [item]
    ensures item in Get(local, category) ==>
      && item !in Get(e.local, category)
      && Subsequence(Get(e.local, category), Get(local, category))
      && forall y :: y != item ==>
           multiset(Get(e.local, category))[y] == multiset(Get(local, category))[y]
    ensures forall c :: c != category ==> Get(e.local, c) == Get(local, c)
  {
    var current := Get(local, category);
    var next := Set(local, category, Toggle(current, item));
    if item in current then TogglePresentRemovesAll(current, item); Emission(next, next)
    else Emission(next, next)
  }

  /** `clearAllFilters`. */
  function ClearAllFilters(): (e: Emission)
    ensures e.local == e.reported
    ensures forall c :: Get(e.local, c) == []
  {
    Emission(EmptyFilters, EmptyFilters)
  }

  /** Whether "Clear all filters" is rendered. */
  predicate ShowClearButton(local: FilterState)
  {
    |local.brands| > 0 || |local.priceRanges| > 0 || |local.os| > 0 || |local.features| > 0
  }

  /** The clear button is shown exactly when some option is selected, and clearing hides it. */
  lemma ShowClearButtonIffSelected(local: FilterState)
    ensures ShowClearButton(local) <==> local != EmptyFilters
    ensures ShowClearButton(local) <==> exists c :: Get(local, c) != []
    ensures !ShowClearButton(ClearAllFilters().local)
  {
    // naming the four lists gives the existential its candidate witnesses
    var lists := [Get(local, Brands), Get(local, PriceRanges), Get(local, Os), Get(local, Features)];
  }

  /** Ticking an unticked option and then unticking it gives back the state it started from. */
  lemma UpdateFilterTwiceRestores(local: FilterState, category: Category, item: string)
    requires item !in Get(local, category)
    ensures UpdateFilter(UpdateFilter(local, category, item).local, category, item).local == local
  {
    ToggleTwiceRestores(Get(local, category), item);
    var once := UpdateFilter(local, category, item).local;
    var twice := UpdateFilter(once, category, item).local;
    assert Get(twice, category) == Get(local, category);
    assert forall c :: Get(twice, c) == Get(local, c);
  }
}
