// The filter sidebar: the filter record it edits and reports, the
// collapsible sections and the mobile open/closed flag.

module ProductFilter {
  import opened Wrappers
  import opened JsValues
  import opened FilterModel

  /** The state the sidebar starts in, and the one "clear filters" returns to. */
  const Cleared: FilterState := FilterState(Some(""), [], None, Some(""), None, DefaultSort)

  /** The sections open at first: categories open, price and sort closed. */
  const InitialSections: map<string, bool> := map["categories" := true, "price" := false, "sort" := false]

  /** A `Partial<FilterState>`: each present field replaces the current one. */
  datatype FilterPatch = FilterPatch(
    search: Option<string>,
    categories: Option<seq<string>>,
    priceRange: Option<string>,
    sortBy: Option<string>)

  /** `{ ...filters, ...patch }`. */
  function Merge(f: FilterState, p: FilterPatch): (r: FilterState)
    ensures r.search == if p.search.Some? then p.search else f.search
    ensures r.categories == if p.categories.Some? then p.categories.value else f.categories
    ensures r.priceRange == if p.priceRange.Some? then p.priceRange else f.priceRange
    ensures r.sortBy == if p.sortBy.Some? then p.sortBy.value else f.sortBy
    ensures r.price == f.price && r.stockAvailability == f.stockAvailability
  {
    FilterState(
      if p.search.Some? then p.search else f.search,
      if p.categories.Some? then p.categories.value else f.categories,
      f.price,
      if p.priceRange.Some? then p.priceRange else f.priceRange,
      f.stockAvailability,
      if p.sortBy.Some? then p.sortBy.value else f.sortBy)
  }

  const NoChange: FilterPatch := FilterPatch(None, None, None, None)

  /** The empty patch changes nothing. */
  lemma MergeNoChange(f: FilterState)
    ensures Merge(f, NoChange) == f
  {
  }

  /** Merging twice with the same patch is the same as merging once. */
  lemma MergeIdempotent(f: FilterState, p: FilterPatch)
    ensures Merge(Merge(f, p), p) == Merge(f, p)
  {
  }

  /** A later patch wins over an earlier one field by field. */
  lemma MergeLaterWins(f: FilterState, p: FilterPatch, q: FilterPatch)
    ensures Merge(Merge(f, p), q) == Merge(f, FilterPatch(
      if q.search.Some? then q.search else p.search,
      if q.categories.Some? then q.categories else p.categories,
      if q.priceRange.Some? then q.priceRange else p.priceRange,
      if q.sortBy.Some? then q.sortBy else p.sortBy))
  {
  }

  /** The category checkbox: checking appends the id, unchecking removes every copy of it. */
  function EditCategories(categories: seq<string>, id: string, checked: bool): (r: seq<string>)
    ensures checked ==> |r| == |categories| + 1 && r[..|categories|] == categories && r[|categories|] == id
    ensures !checked ==> id !in r && multiset(r) == multiset(categories)[id := 0]
  {
    if checked then categories + [id] else Without(categories, id)
  }

  /** Unchecking keeps the other ids in their order: it distributes over concatenation. */
  lemma UncheckKeepsOrder(a: seq<string>, b: seq<string>, id: string)
    ensures EditCategories(a + b, id, false) == EditCategories(a, id, false) + EditCategories(b, id, false)
  {
    WithoutConcat(a, b, id);
  }

  /** Unchecking an id that is not selected changes nothing. */
  lemma UncheckAbsent(categories: seq<string>, id: string)
    requires id !in categories
    ensures EditCategories(categories, id, false) == categories
  {
    WithoutAbsent(categories, id);
  }

  /** Checking an id and then unchecking it leaves none of it, whatever was there before. */
  lemma CheckThenUncheck(categories: seq<string>, id: string)
    ensures EditCategories(EditCategories(categories, id, true), id, false) == EditCategories(categories, id, false)
  {
    WithoutConcat(categories, [id], id);
    assert Without([id], id) == [];
  }

  /** Checking an id that was not selected, then unchecking it, restores the list. */
  lemma CheckUncheckRestores(categories: seq<string>, id: string)
    requires id !in categories
    ensures EditCategories(EditCategories(categories, id, true), id, false) == categories
  {
    CheckThenUncheck(categories, id);
    UncheckAbsent(categories, id);
  }

  /** The badge number: selected categories plus one for a price range and one for a search. */
  function ActiveFiltersCount(f: FilterState): (r: nat)
    ensures r >= |f.categories|
    ensures r <= |f.categories| + 2
  {
    |f.categories| + (if Truthy(f.priceRange) then 1 else 0) + (if Truthy(f.search) then 1 else 0)
  }

  /** No filter is active exactly when no category is selected and the price range and search are empty. */
  lemma ActiveFiltersZero(f: FilterState)
    ensures ActiveFiltersCount(f) == 0 <==> f.categories == [] && !Truthy(f.priceRange) && !Truthy(f.search)
  {
  }

  /** The sort order, the price bounds and the stock filter never count. */
  lemma ActiveFiltersIgnoreSort(f: FilterState, sortBy: string)
    ensures ActiveFiltersCount(f.(sortBy := sortBy)) == ActiveFiltersCount(f)
  {
  }

  /** After "clear filters" nothing counts. */
  lemma ActiveFiltersCleared()
    ensures ActiveFiltersCount(Cleared) == 0
  {
  }

  /** Checking a category adds one to the count; unchecking takes away one per copy removed. */
  lemma ActiveFiltersCategoryEdit(f: FilterState, id: string, checked: bool)
    ensures ActiveFiltersCount(f.(categories := EditCategories(f.categories, id, checked))) ==
      if checked then ActiveFiltersCount(f) + 1 else ActiveFiltersCount(f) - multiset(f.categories)[id]
  {
    var r := EditCategories(f.categories, id, checked);
    if !checked {
      assert |multiset(r)| == |multiset(f.categories)| - multiset(f.categories)[id];
    }
  }

  /** A section is shown open when its flag is set; a missing flag reads as closed. */
  predicate IsOpen(sections: map<string, bool>, section: string) {
    section in sections && sections[section]
  }

  /** `{ ...prev, [section]: !prev[section] }`. */
  function Toggle(sections: map<string, bool>, section: string): (r: map<string, bool>)
    ensures section in r && (IsOpen(r, section) <==> !IsOpen(sections, section))
    ensures forall k :: k != section ==> (k in r <==> k in sections)
    ensures forall k :: k in sections && k != section ==> r[k] == sections[k]
  {
    sections[section := !IsOpen(sections, section)]
  }

  /** Toggling a section that has a flag twice restores the map. */
  lemma ToggleTwice(sections: map<string, bool>, section: string)
    requires section in sections
    ensures Toggle(Toggle(sections, section), section) == sections
  {
  }

  /** Toggling a section that had no flag twice records it as closed. */
  lemma ToggleTwiceAbsent(sections: map<string, bool>, section: string)
    requires section !in sections
    ensures Toggle(Toggle(sections, section), section) == sections[section := false]
  {
  }

  /** Initially only the categories section is open. */
  lemma InitialOpenSections()
    ensures IsOpen(InitialSections, "categories")
    ensures !IsOpen(InitialSections, "price") && !IsOpen(InitialSections, "sort")
  {
  }

  /** The sidebar component's state. */
  class Sidebar {
    var filters: FilterState
    var isFilterOpen: bool
    var openSections: map<string, bool>

    constructor()
      ensures filters == Cleared && !isFilterOpen && openSections == InitialSections
    {
      filters := Cleared;
      isFilterOpen := false;
      openSections := InitialSections;
    }

    /** Merges the patch into the filters and returns the record passed to `onFilterChange`. */
    method UpdateFilters(p: FilterPatch) returns (reported: FilterState)
      modifies this
      ensures filters == Merge(old(filters), p) && reported == filters
      ensures isFilterOpen == old(isFilterOpen) && openSections == old(openSections)
    {
      var updated := Merge(filters, p);
      filters := updated;
      reported := updated;
    }

    /** Typing in the search box: update the search, then return the query passed to `onSearch`. */
    method HandleSearch(query: string) returns (reported: FilterState, searched: string)
      modifies this
      ensures filters == old(filters).(search := Some(query)) && reported == filters && searched == query
      ensures isFilterOpen == old(isFilterOpen) && openSections == old(openSections)
    {
      reported := UpdateFilters(FilterPatch(Some(query), None, None, None));
      searched := query;
    }

    method ToggleSection(section: string)
      modifies this
      ensures openSections == Toggle(old(openSections), section)
      ensures filters == old(filters) && isFilterOpen == old(isFilterOpen)
    {
      openSections := Toggle(openSections, section);
    }

    /** Back to the initial filters, which are reported to `onFilterChange`. */
    method ClearFilters() returns (reported: FilterState)
      modifies this
      ensures filters == Cleared && reported == Cleared
      ensures isFilterOpen == old(isFilterOpen) && openSections == old(openSections)
    {
      filters := Cleared;
      reported := Cleared;
    }

    /** The mobile "filters" button. */
    method ToggleFilterPanel()
      modifies this
      ensures isFilterOpen == !old(isFilterOpen)
      ensures filters == old(filters) && openSections == old(openSections)
    {
      isFilterOpen := !isFilterOpen;
    }

    /** A category checkbox changed to `checked`. */
    method CategoryChanged(id: string, checked: bool) returns (reported: FilterState)
      modifies this
      ensures filters == old(filters).(categories := EditCategories(old(filters).categories, id, checked))
      ensures reported == filters
      ensures isFilterOpen == old(isFilterOpen) && openSections == old(openSections)
    {
      var newCategories := EditCategories(filters.categories, id, checked);
      reported := UpdateFilters(FilterPatch(None, Some(newCategories), None, None));
    }

    /** A sort radio button chosen. */
    method SelectSort(optionId: string) returns (reported: FilterState)
      modifies this
      ensures filters == old(filters).(sortBy := optionId) && reported == filters
      ensures isFilterOpen == old(isFilterOpen) && openSections == old(openSections)
    {
      reported := UpdateFilters(FilterPatch(None, None, None, Some(optionId)));
    }

    /** A price-range radio button chosen. */
    method SelectPriceRange(rangeId: string) returns (reported: FilterState)
      modifies this
      ensures filters == old(filters).(priceRange := Some(rangeId)) && reported == filters
      ensures isFilterOpen == old(isFilterOpen) && openSections == old(openSections)
    {
      reported := UpdateFilters(FilterPatch(None, None, Some(rangeId), None));
    }
  }

  /** Toggling a section twice on the component restores its sections; clearing then empties the count. */
  method ToggleTwiceThenClear(s: Sidebar, section: string) returns (count: nat)
    requires section in s.openSections
    modifies s
    ensures s.openSections == old(s.openSections)
    ensures count == 0 && s.filters == Cleared
  {
    s.ToggleSection(section);
    s.ToggleSection(section);
    ToggleTwice(old(s.openSections), section);
    var reported := s.ClearFilters();
    ActiveFiltersCleared();
    count := ActiveFiltersCount(s.filters);
  }
}
