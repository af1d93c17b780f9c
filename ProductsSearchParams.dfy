/**
 * The catalog query-string codec of the storefront's product list: reading
 * the filter record, the page number and the cursor out of the URL's
 * parameters, writing a filter record into a fresh parameter list, editing
 * the pagination parameters, and building the backend filter object.
 * Navigation (`router.push`) is represented by the parameter list it would
 * be given.
 */
module ProductsSearchParams {
  import opened Wrappers
  import opened JsValues
  import opened QueryParams
  import opened FilterModel

  // ----- decoding -----

  /** `currentFilters`: the filter record the URL describes. */
  function CurrentFilters(ps: Params): (f: FilterState)
    ensures f.search != Some("") && f.priceRange != Some("") && f.sortBy != ""
    ensures "" !in f.categories
    ensures f.price == PriceOf(f.priceRange)
    ensures f.price.Some? ==> f.priceRange.Some?
  {
    var priceRange := NonEmpty(Get(ps, "priceRange"));
    FilterState(
      search := NonEmpty(Get(ps, "search")),
      categories := Without(GetAll(ps, "category"), ""),
      price := PriceOf(priceRange),
      priceRange := priceRange,
      stockAvailability := Get(ps, "stockAvailability"),
      sortBy := OrElse(Get(ps, "sortBy"), DefaultSort))
  }

  /** `currentPage`: `parseInt(page || '1', 10)`. */
  function CurrentPage(ps: Params): (n: JsNumber)
    ensures !Truthy(Get(ps, "page")) ==> n == Num(1)
    ensures Truthy(Get(ps, "page")) ==> n == ParseInt(Get(ps, "page").value)
  {
    assert NatToString(1) == "1";
    ParseIntOfNatToString(1);
    ParseInt(OrElse(Get(ps, "page"), "1"))
  }

  /** `cursor`: the raw `cursor` parameter, null when absent. */
  function Cursor(ps: Params): (c: Option<string>)
    ensures c.None? <==> !Has(ps, "cursor")
  {
    Get(ps, "cursor")
  }

  /** The URL's decoded filters depend on only five parameter names. */
  lemma DecodeReadsFilterKeys(ps: Params, qs: Params)
    requires forall k :: k in FilterKeys ==> GetAll(ps, k) == GetAll(qs, k)
    ensures CurrentFilters(ps) == CurrentFilters(qs)
  {
    forall k | k in FilterKeys
      ensures Get(ps, k) == Get(qs, k)
    {
      GetIsFirstOfGetAll(ps, k);
      GetIsFirstOfGetAll(qs, k);
    }
  }

  const FilterKeys: set<string> := {"search", "category", "priceRange", "sortBy", "stockAvailability"}

  /** The names the pagination edits write; none of them is a filter name. */
  predicate PagingName(name: string) {
    name == "page" || name == "cursor" || name == "loadMore"
  }

  /** Writing a pagination parameter leaves the decoded filters alone, and the page if it is not `page`. */
  lemma SetKeepsDecoding(ps: Params, name: string, value: string)
    requires PagingName(name)
    ensures CurrentFilters(Set(ps, name, value)) == CurrentFilters(ps)
    ensures name != "page" ==> CurrentPage(Set(ps, name, value)) == CurrentPage(ps)
  {
    forall k | k in FilterKeys ensures GetAll(Set(ps, name, value), k) == GetAll(ps, k) {
      SetKeepsOther(ps, name, value, k);
    }
    DecodeReadsFilterKeys(Set(ps, name, value), ps);
    if name != "page" {
      SetKeepsOther(ps, name, value, "page");
      CurrentPageReadsPage(Set(ps, name, value), ps);
    }
  }

  /** Deleting a pagination parameter leaves the decoded filters alone, and the page if it is not `page`. */
  lemma DeleteKeepsDecoding(ps: Params, name: string)
    requires PagingName(name)
    ensures CurrentFilters(Delete(ps, name)) == CurrentFilters(ps)
    ensures name != "page" ==> CurrentPage(Delete(ps, name)) == CurrentPage(ps)
  {
    forall k | k in FilterKeys ensures GetAll(Delete(ps, name), k) == GetAll(ps, k) {
      DeleteKeepsOther(ps, name, k);
    }
    DecodeReadsFilterKeys(Delete(ps, name), ps);
    if name != "page" {
      DeleteKeepsOther(ps, name, "page");
      CurrentPageReadsPage(Delete(ps, name), ps);
    }
  }

  /** The page number depends on the `page` parameter alone. */
  lemma CurrentPageReadsPage(ps: Params, qs: Params)
    requires GetAll(ps, "page") == GetAll(qs, "page")
    ensures CurrentPage(ps) == CurrentPage(qs)
  {
    GetIsFirstOfGetAll(ps, "page");
    GetIsFirstOfGetAll(qs, "page");
  }

  // ----- encoding -----

  /** One pair `(name, value)` when the value is non-empty, none otherwise. */
  function Entry(name: string, value: Option<string>): Params {
    if Truthy(value) then [(name, value.value)] else []
  }

  /** One `category` pair per element of the list, in list order. */
  function CategoryEntries(categories: seq<string>): (ps: Params)
    ensures |ps| == |categories|
    ensures forall i :: 0 <= i < |ps| ==> ps[i] == ("category", categories[i])
  {
    seq(|categories|, i requires 0 <= i < |categories| => ("category", categories[i]))
  }

  function SortEntry(sortBy: string): Params {
    if sortBy != "" && sortBy != DefaultSort then [("sortBy", sortBy)] else []
  }

  /** The parameter list `updateFilters` builds for a filter record. */
  function EncodedFilters(f: FilterState): Params {
    Entry("search", f.search) + CategoryEntries(f.categories) + Entry("priceRange", f.priceRange)
      + SortEntry(f.sortBy) + Entry("stockAvailability", f.stockAvailability)
  }

  /**
   * `updateFilters`: starting from an empty list, `set` the non-empty
   * search, `append` each category, `set` the non-empty price range, a sort
   * other than "NAME" and the non-empty stock availability, then `delete`
   * `page` and `cursor`.
   */
  method UpdateFilters(f: FilterState) returns (params: Params)
    ensures params == EncodedFilters(f)
  {
    params := [];
    if Truthy(f.search) {
      params := Set(params, "search", f.search.value);
    }
    ghost var head := params;
    assert head == Entry("search", f.search);
    if |f.categories| > 0 {
      for i := 0 to |f.categories|
        invariant params == head + CategoryEntries(f.categories[..i])
      {
        params := Append(params, "category", f.categories[i]);
        CategoryEntriesSnoc(f.categories, i);
      }
    }
    assert f.categories[..|f.categories|] == f.categories;
    ghost var a, b, c, d, e := Entry("search", f.search), CategoryEntries(f.categories),
      Entry("priceRange", f.priceRange), SortEntry(f.sortBy), Entry("stockAvailability", f.stockAvailability);
    assert params == a + b;
    EncodedNames(f, "priceRange");
    if Truthy(f.priceRange) {
      params := Set(params, "priceRange", f.priceRange.value);
    }
    SetEntry(a + b, "priceRange", f.priceRange);
    assert params == a + b + c;
    EncodedNames(f, "sortBy");
    if f.sortBy != "" && f.sortBy != DefaultSort {
      params := Set(params, "sortBy", f.sortBy);
    }
    SetSortEntry(a + b + c, f.sortBy);
    assert params == a + b + c + d;
    EncodedNames(f, "stockAvailability");
    if Truthy(f.stockAvailability) {
      params := Set(params, "stockAvailability", f.stockAvailability.value);
    }
    SetEntry(a + b + c + d, "stockAvailability", f.stockAvailability);
    assert params == a + b + c + d + e == EncodedFilters(f);
    EncodedLacks(f, "page");
    EncodedLacks(f, "cursor");
    DeleteAbsent(params, "page");
    params := Delete(params, "page");
    DeleteAbsent(params, "cursor");
    params := Delete(params, "cursor");
  }

  lemma CategoryEntriesSnoc(categories: seq<string>, i: nat)
    requires i < |categories|
    ensures CategoryEntries(categories[..i + 1]) == CategoryEntries(categories[..i]) + [("category", categories[i])]
  {
  }

  /** A guarded `set` of a name the list does not hold appends that name's entry. */
  lemma SetEntry(ps: Params, name: string, value: Option<string>)
    requires !Has(ps, name)
    ensures (if Truthy(value) then Set(ps, name, value.value) else ps) == ps + Entry(name, value)
  {
  }

  lemma SetSortEntry(ps: Params, sortBy: string)
    requires !Has(ps, "sortBy")
    ensures (if sortBy != "" && sortBy != DefaultSort then Set(ps, "sortBy", sortBy) else ps) == ps + SortEntry(sortBy)
  {
  }

  lemma EntryNames(name: string, value: Option<string>, other: string)
    requires other != name
    ensures !Has(Entry(name, value), other)
  {
  }

  lemma CategoryEntriesNames(categories: seq<string>, other: string)
    requires other != "category"
    ensures !Has(CategoryEntries(categories), other)
    decreases |categories|
  {
    if categories != [] {
      assert CategoryEntries(categories)[1..] == CategoryEntries(categories[1..]);
      CategoryEntriesNames(categories[1..], other);
    }
  }

  /** Which names each prefix of the encoded list can hold. */
  lemma EncodedNames(f: FilterState, k: string)
    ensures k !in {"search", "category"} ==>
      !Has(Entry("search", f.search) + CategoryEntries(f.categories), k)
    ensures k !in {"search", "category", "priceRange"} ==>
      !Has(Entry("search", f.search) + CategoryEntries(f.categories) + Entry("priceRange", f.priceRange), k)
    ensures k !in {"search", "category", "priceRange", "sortBy"} ==>
      !Has(Entry("search", f.search) + CategoryEntries(f.categories) + Entry("priceRange", f.priceRange) + SortEntry(f.sortBy), k)
  {
    var a := Entry("search", f.search);
    var b := CategoryEntries(f.categories);
    var c := Entry("priceRange", f.priceRange);
    var d := SortEntry(f.sortBy);
    var e := Entry("stockAvailability", f.stockAvailability);
    HasConcat(a, b, k);
    HasConcat(a + b, c, k);
    HasConcat(a + b + c, d, k);
    if k != "category" {
      CategoryEntriesNames(f.categories, k);
    }
  }

  /** A name that is not one of the five filter names never appears in the encoded list. */
  lemma EncodedLacks(f: FilterState, k: string)
    requires k != "search" && k != "category" && k != "priceRange" && k != "sortBy" && k != "stockAvailability"
    ensures !Has(EncodedFilters(f), k)
  {
    var a := Entry("search", f.search);
    var b := CategoryEntries(f.categories);
    var c := Entry("priceRange", f.priceRange);
    var d := SortEntry(f.sortBy);
    var e := Entry("stockAvailability", f.stockAvailability);
    EncodedNames(f, k);
    HasConcat(a + b + c + d, e, k);
  }

  /** Only the five filter names are ever written: never `page`, `cursor` or `loadMore`. */
  lemma EncodedKeys(f: FilterState)
    ensures forall i :: 0 <= i < |EncodedFilters(f)| ==> EncodedFilters(f)[i].0 in FilterKeys
    ensures !Has(EncodedFilters(f), "page") && !Has(EncodedFilters(f), "cursor") && !Has(EncodedFilters(f), "loadMore")
  {
    EncodedLacks(f, "page");
    EncodedLacks(f, "cursor");
    EncodedLacks(f, "loadMore");
  }

  lemma EntryGetAll(name: string, value: Option<string>, other: string)
    ensures GetAll(Entry(name, value), other) == if other == name && Truthy(value) then [value.value] else []
  {
  }

  lemma {:induction false} CategoryEntriesGetAll(categories: seq<string>, other: string)
    ensures GetAll(CategoryEntries(categories), other) == if other == "category" then categories else []
  {
    if categories != [] {
      assert CategoryEntries(categories)[1..] == CategoryEntries(categories[1..]);
      CategoryEntriesGetAll(categories[1..], other);
      if other == "category" {
        assert categories == [categories[0]] + categories[1..];
      }
    }
  }

  lemma SortEntryGetAll(sortBy: string, other: string)
    ensures GetAll(SortEntry(sortBy), other) == if other == "sortBy" && sortBy != "" && sortBy != DefaultSort then [sortBy] else []
  {
  }

  lemma EncodedGetAllAt(f: FilterState, k: string)
    ensures GetAll(EncodedFilters(f), k) ==
      GetAll(Entry("search", f.search), k) + GetAll(CategoryEntries(f.categories), k) + GetAll(Entry("priceRange", f.priceRange), k)
      + GetAll(SortEntry(f.sortBy), k) + GetAll(Entry("stockAvailability", f.stockAvailability), k)
  {
    var a := Entry("search", f.search);
    var b := CategoryEntries(f.categories);
    var c := Entry("priceRange", f.priceRange);
    var d := SortEntry(f.sortBy);
    var e := Entry("stockAvailability", f.stockAvailability);
    GetAllConcat(a + b + c + d, e, k);
    GetAllConcat(a + b + c, d, k);
    GetAllConcat(a + b, c, k);
    GetAllConcat(a, b, k);
  }

  /** The search is written once when it is non-empty. */
  lemma EncodedSearch(f: FilterState)
    ensures GetAll(EncodedFilters(f), "search") == if Truthy(f.search) then [f.search.value] else []
  {
    EncodedGetAllAt(f, "search");
    CategoryEntriesGetAll(f.categories, "search");
    EntryGetAll("search", f.search, "search");
    EntryGetAll("priceRange", f.priceRange, "search");
    EntryGetAll("stockAvailability", f.stockAvailability, "search");
    SortEntryGetAll(f.sortBy, "search");
  }

  /** Every category is written, in list order, empty strings included. */
  lemma EncodedCategories(f: FilterState)
    ensures GetAll(EncodedFilters(f), "category") == f.categories
  {
    EncodedGetAllAt(f, "category");
    CategoryEntriesGetAll(f.categories, "category");
    EntryGetAll("search", f.search, "category");
    EntryGetAll("priceRange", f.priceRange, "category");
    EntryGetAll("stockAvailability", f.stockAvailability, "category");
    SortEntryGetAll(f.sortBy, "category");
  }

  /** The price range is written once when it is non-empty. */
  lemma EncodedPriceRange(f: FilterState)
    ensures GetAll(EncodedFilters(f), "priceRange") == if Truthy(f.priceRange) then [f.priceRange.value] else []
  {
    EncodedGetAllAt(f, "priceRange");
    CategoryEntriesGetAll(f.categories, "priceRange");
    EntryGetAll("search", f.search, "priceRange");
    EntryGetAll("priceRange", f.priceRange, "priceRange");
    EntryGetAll("stockAvailability", f.stockAvailability, "priceRange");
    SortEntryGetAll(f.sortBy, "priceRange");
  }

  /** The sort is written once unless it is empty or the default "NAME". */
  lemma EncodedSortBy(f: FilterState)
    ensures GetAll(EncodedFilters(f), "sortBy") == if f.sortBy != "" && f.sortBy != DefaultSort then [f.sortBy] else []
  {
    EncodedGetAllAt(f, "sortBy");
    CategoryEntriesGetAll(f.categories, "sortBy");
    EntryGetAll("search", f.search, "sortBy");
    EntryGetAll("priceRange", f.priceRange, "sortBy");
    EntryGetAll("stockAvailability", f.stockAvailability, "sortBy");
    SortEntryGetAll(f.sortBy, "sortBy");
  }

  /** The stock availability is written once when it is non-empty. */
  lemma EncodedStockAvailability(f: FilterState)
    ensures GetAll(EncodedFilters(f), "stockAvailability") == if Truthy(f.stockAvailability) then [f.stockAvailability.value] else []
  {
    EncodedGetAllAt(f, "stockAvailability");
    CategoryEntriesGetAll(f.categories, "stockAvailability");
    EntryGetAll("search", f.search, "stockAvailability");
    EntryGetAll("priceRange", f.priceRange, "stockAvailability");
    EntryGetAll("stockAvailability", f.stockAvailability, "stockAvailability");
    SortEntryGetAll(f.sortBy, "stockAvailability");
  }

  /**
   * Round trip: decoding what `updateFilters` wrote gives back the non-empty
   * search, price range and stock availability, the categories without the
   * empty strings, the sort (or "NAME" for an empty one), and a price
   * recomputed from the price range rather than the record's own `price`.
   */
  lemma DecodeEncode(f: FilterState)
    ensures CurrentFilters(EncodedFilters(f)) == FilterState(
      search := NonEmpty(f.search),
      categories := Without(f.categories, ""),
      price := PriceOf(f.priceRange),
      priceRange := NonEmpty(f.priceRange),
      stockAvailability := NonEmpty(f.stockAvailability),
      sortBy := if f.sortBy == "" then DefaultSort else f.sortBy)
  {
    var ps := EncodedFilters(f);
    EncodedSearch(f);
    EncodedCategories(f);
    EncodedPriceRange(f);
    EncodedSortBy(f);
    EncodedStockAvailability(f);
    GetIsFirstOfGetAll(ps, "search");
    GetIsFirstOfGetAll(ps, "priceRange");
    GetIsFirstOfGetAll(ps, "sortBy");
    GetIsFirstOfGetAll(ps, "stockAvailability");
  }

  /** The records the round trip reproduces exactly. */
  predicate Canonical(f: FilterState) {
    && f.search != Some("")
    && "" !in f.categories
    && f.priceRange != Some("")
    && f.price == PriceOf(f.priceRange)
    && f.stockAvailability != Some("")
    && f.sortBy != ""
  }

  lemma DecodeEncodeCanonical(f: FilterState)
    requires Canonical(f)
    ensures CurrentFilters(EncodedFilters(f)) == f
  {
    DecodeEncode(f);
    WithoutAbsent(f.categories, "");
  }

  /** Every decoded URL without an empty `stockAvailability` is canonical, hence survives encode-then-decode. */
  lemma DecodeEncodeDecode(ps: Params)
    requires Get(ps, "stockAvailability") != Some("")
    ensures Canonical(CurrentFilters(ps))
    ensures CurrentFilters(EncodedFilters(CurrentFilters(ps))) == CurrentFilters(ps)
  {
    DecodeEncodeCanonical(CurrentFilters(ps));
  }

  /**
   * An empty stock value is not reproduced: `?stockAvailability=` decodes to
   * the empty string, which the encoder drops, so decoding again gives none.
   */
  lemma EmptyStockNotReproduced()
    ensures CurrentFilters([("stockAvailability", "")]).stockAvailability == Some("")
    ensures CurrentFilters(EncodedFilters(CurrentFilters([("stockAvailability", "")]))).stockAvailability == None
  {
    var f := CurrentFilters([("stockAvailability", "")]);
    assert f.stockAvailability == Some("");
    EncodedStockAvailability(f);
  }

  /** The URL `?search=shoes&category=a&category=b&priceRange=100-500`. */
  lemma DecodeShoesExample()
    ensures CurrentFilters([("search", "shoes"), ("category", "a"), ("category", "b"), ("priceRange", "100-500")])
      == FilterState(Some("shoes"), ["a", "b"], Some(PriceBounds(Some(100), Some(500))), Some("100-500"), None, "NAME")
  {
    var g := FilterState(Some("shoes"), ["a", "b"], Some(PriceBounds(Some(100), Some(500))), Some("100-500"), None, "NAME");
    assert EncodedFilters(g) == [("search", "shoes"), ("category", "a"), ("category", "b"), ("priceRange", "100-500")];
    ParseHundredToFiveHundred();
    assert Canonical(g);
    DecodeEncodeCanonical(g);
  }

  // ----- the backend filter -----

  /** The `ProductFilterInput` sent to the backend; it has no sort field. */
  datatype ProductFilterInput = ProductFilterInput(
    search: Option<string>,
    categories: Option<seq<string>>,
    price: Option<PriceBounds>,
    stockAvailability: Option<string>)

  /**
   * `getGraphQLFilter`: fills an empty filter object field by field from the
   * current filters, re-parsing their `priceRange` for the price.
   */
  method GetGraphQLFilter(ps: Params) returns (filter: ProductFilterInput)
    ensures filter.search == CurrentFilters(ps).search
    ensures filter.categories.Some? <==> CurrentFilters(ps).categories != []
    ensures filter.categories.Some? ==> filter.categories.value == CurrentFilters(ps).categories
    ensures filter.price == CurrentFilters(ps).price
    ensures filter.stockAvailability == NonEmpty(Get(ps, "stockAvailability"))
  {
    var current := CurrentFilters(ps);
    filter := ProductFilterInput(None, None, None, None);
    if Truthy(current.search) {
      filter := filter.(search := current.search);
    }
    if |current.categories| > 0 {
      filter := filter.(categories := Some(current.categories));
    }
    if Truthy(current.priceRange) {
      var parsed := ParsePriceRange(current.priceRange.value);
      if parsed.Some? {
        filter := filter.(price := parsed);
      }
    }
    if Truthy(current.stockAvailability) {
      filter := filter.(stockAvailability := current.stockAvailability);
    }
  }

  // ----- pagination -----

  /**
   * `updatePagination`: on a copy of the parameters, write `page` when it is
   * above 1 and delete it otherwise, write `cursor` when the new cursor is
   * non-empty and delete it otherwise.
   */
  method UpdatePagination(ps: Params, page: int, newCursor: Option<string>) returns (params: Params)
    ensures Get(params, "page") == if page > 1 then Some(NatToString(page)) else None
    ensures CurrentPage(params) == if page > 1 then Num(page) else Num(1)
    ensures Cursor(params) == NonEmpty(newCursor)
    ensures forall k :: k != "page" && k != "cursor" ==> GetAll(params, k) == GetAll(ps, k)
    ensures CurrentFilters(params) == CurrentFilters(ps)
  {
    params := ps;
    if page > 1 {
      params := Set(params, "page", NatToString(page));
      ParseIntOfNatToString(page);
      SetHolds(ps, "page", NatToString(page));
      forall k | k != "page" ensures GetAll(params, k) == GetAll(ps, k) {
        SetKeepsOther(ps, "page", NatToString(page), k);
      }
    } else {
      params := Delete(params, "page");
      forall k | k != "page" ensures GetAll(params, k) == GetAll(ps, k) {
        DeleteKeepsOther(ps, "page", k);
      }
    }
    assert Get(params, "page") == if page > 1 then Some(NatToString(page)) else None;
    ghost var afterPage := params;
    if Truthy(newCursor) {
      params := Set(params, "cursor", newCursor.value);
      SetHolds(afterPage, "cursor", newCursor.value);
      SetGet(afterPage, "cursor", newCursor.value, "page");
      SetKeepsOther(afterPage, "cursor", newCursor.value, "page");
      forall k | k != "cursor" ensures GetAll(params, k) == GetAll(afterPage, k) {
        SetKeepsOther(afterPage, "cursor", newCursor.value, k);
      }
    } else {
      params := Delete(params, "cursor");
      DeleteGet(afterPage, "cursor", "page");
      DeleteKeepsOther(afterPage, "cursor", "page");
      forall k | k != "cursor" ensures GetAll(params, k) == GetAll(afterPage, k) {
        DeleteKeepsOther(afterPage, "cursor", k);
      }
    }
    assert Get(params, "page") == Get(afterPage, "page");
    assert Cursor(params) == NonEmpty(newCursor);
    if page > 1 {
      SetKeepsDecoding(ps, "page", NatToString(page));
    } else {
      DeleteKeepsDecoding(ps, "page");
    }
    if Truthy(newCursor) {
      SetKeepsDecoding(afterPage, "cursor", newCursor.value);
    } else {
      DeleteKeepsDecoding(afterPage, "cursor");
    }
  }

  /** `loadMore`: on a copy of the parameters, `set` the cursor and `loadMore=true`. */
  method LoadMore(ps: Params, newCursor: string) returns (params: Params)
    ensures Cursor(params) == Some(newCursor)
    ensures Get(params, "loadMore") == Some("true")
    ensures forall k :: k != "cursor" && k != "loadMore" ==> GetAll(params, k) == GetAll(ps, k)
    ensures CurrentFilters(params) == CurrentFilters(ps)
    ensures CurrentPage(params) == CurrentPage(ps)
  {
    params := Set(ps, "cursor", newCursor);
    SetHolds(ps, "cursor", newCursor);
    forall k | k != "cursor" ensures GetAll(params, k) == GetAll(ps, k) {
      SetKeepsOther(ps, "cursor", newCursor, k);
    }
    ghost var afterCursor := params;
    params := Set(params, "loadMore", "true");
    SetHolds(afterCursor, "loadMore", "true");
    SetGet(afterCursor, "loadMore", "true", "cursor");
    forall k | k != "loadMore" ensures GetAll(params, k) == GetAll(afterCursor, k) {
      SetKeepsOther(afterCursor, "loadMore", "true", k);
    }
    SetKeepsDecoding(ps, "cursor", newCursor);
    SetKeepsDecoding(afterCursor, "loadMore", "true");
  }
}
