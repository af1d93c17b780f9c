# demo-ecom-01: a verified model of the storefront and dashboard cores

This project models the small sequential cores of the demo e-commerce storefront and its admin dashboard, and proves their properties.

- **Catalog query-string codec** (`useProductsSearchParams`). It reads the filter record, the page number and the cursor out of the URL's parameters. It writes a filter record into a fresh parameter list, edits the pagination parameters on a copy, and builds the backend filter object. The URL's parameters are an ordered list of name/value pairs. `get` (first match), `getAll`, `set` (replace the first, drop the others), `append` and `delete` are modelled after the URLSearchParams interface of the WHATWG URL Standard, section 6.2.
- **Pagination window** (`CustomPagination`). `getVisiblePages` computes the page numbers and ellipses shown. Around it sit the click guard, the button flags and the "showing X to Y" arithmetic of `PaginationInfo`.
- **Filter sidebar** (`ProductFilter`). A class holds the filter record, the collapsible sections and the mobile panel flag. Every handler becomes a method that also returns what it reports to `onFilterChange` / `onSearch`.
- **Product list screen** (`ProductsPage`). A class holds the products, `loading`, the cursor, the next-page flag, the total count and the current filters. `fetchProducts` is split into a synchronous start (`BeginFetch`, which sets `loading` and returns the request) and a completion (`CompleteFetch`, which applies the response). That way the in-flight state can be seen by `loadMore`'s guard.
- **Product purchase controls** (`ProductDetail`). A class holds the selected variant, the quantity stepper (never below 1), favourites, the image, the alert and the page URL's parameters. Add-to-cart and buy-now are split into a start and a finish in the same way.
- **Section route guard** (`SectionRoute`). It decides between render nothing, the route, or the not-found page.
- **Login error messages** (`LoginPage/messages`). This is the descriptor table and the total mapping from an error code to a descriptor.
- **Seasonal collection links**. The slug is the lowercased name with every whitespace run turned into one dash. The link is `/collections/<slug>`.

Modules: `Wrappers` (Option), `JsValues` (the narrow JavaScript value semantics the code relies on), `QueryParams`, `FilterModel` (the shared filter record and the price-range parser), then one module per source file.

Two type declarations disagree. The sidebar declares a filter record with four required strings (storefront/src/ui/components/ProductFilter.tsx:18-23). The decoder returns an optional search together with `price` and `stockAvailability` (storefront/src/hooks/useProductsSearchParams.ts:27-34). One record, `FilterModel.FilterState`, with `Option` fields serves both. The sidebar's empty strings are `Some("")`.

The model keeps these quirks of the code:
- A zero bound is dropped from the price (`min && {gte: min}`), so `"0-0"` gives an empty price object.
- The preset `"over-1000"` splits into `"over"` (NaN) and `1000`, so it decodes to an upper bound of 1000, not a lower one.
- The decoder keeps the stock value as the URL gives it, so `?stockAvailability=` decodes to the empty string. The encoder drops empty values, so decoding again gives no stock value. This is why the decode-encode-decode round trip excludes an empty stock value.

JavaScript `Number` on a string is modelled narrowly: `""` is 0, an all-digit string is its value, anything else is NaN, and a missing split part (`undefined`) is NaN. `parseInt(s, 10)` reads the leading digits, and gives NaN when there are none.

## Model

| member | source | states |
|---|---|---|
| FilterModel.ParsePriceRange | storefront/src/hooks/useProductsSearchParams.ts:17-24 | no price object exactly when both split parts are NaN (a missing second part counts as NaN); a present bound is never 0 |
| FilterModel.Bound | storefront/src/hooks/useProductsSearchParams.ts:21-22 | a bound is kept exactly when the part is a number other than 0 (`min && {gte: min}`), with that value |
| FilterModel.PriceOf | storefront/src/hooks/useProductsSearchParams.ts:17 | an empty or absent price range gives no price; otherwise the parse of the range |
| FilterModel.ParseTwoNumbers | storefront/src/hooks/useProductsSearchParams.ts:18-23 | "a-b" gives both bounds, each dropped when it is 0 |
| FilterModel.ParseOneNumber | storefront/src/hooks/useProductsSearchParams.ts:18-23 | a bare number gives a lower bound only |
| FilterModel.ParseWordThenNumber | storefront/src/hooks/useProductsSearchParams.ts:18-23 | "word-b" gives an upper bound only |
| FilterModel.ParseNumberThenWord | storefront/src/hooks/useProductsSearchParams.ts:18-23 | "a-word" gives a lower bound only |
| FilterModel.ParseTwoWords | storefront/src/hooks/useProductsSearchParams.ts:19 | two non-numeric parts give no price at all |
| FilterModel.ParseHundredToFiveHundred | storefront/src/hooks/useProductsSearchParams.ts:18-23 | "100-500" gives gte 100 and lte 500 |
| FilterModel.ParseFiveHundredToThousand | storefront/src/hooks/useProductsSearchParams.ts:18-23 | "500-1000" gives gte 500 and lte 1000 |
| FilterModel.ParseUnderHundred | storefront/src/hooks/useProductsSearchParams.ts:18-23 | "under-100" gives lte 100 only |
| FilterModel.ParseOverThousand | storefront/src/screens/products/ProductsPage.tsx:52 | the preset "over-1000" gives lte 1000 only |
| FilterModel.ParseHundredThenWord | storefront/src/hooks/useProductsSearchParams.ts:18-23 | "100-abc" gives gte 100 only |
| FilterModel.ParseFiveHundredAlone | storefront/src/hooks/useProductsSearchParams.ts:18-23 | "500" gives gte 500 only |
| FilterModel.ParseZeroZero | storefront/src/hooks/useProductsSearchParams.ts:19-23 | "0-0" gives an empty price object, not none |
| FilterModel.Without | storefront/src/hooks/useProductsSearchParams.ts:29 | the filtered list lacks the value and has the same multiset apart from it |
| FilterModel.WithoutConcat | storefront/src/hooks/useProductsSearchParams.ts:29 | filtering keeps order: it distributes over concatenation |
| FilterModel.WithoutAbsent | storefront/src/hooks/useProductsSearchParams.ts:29 | filtering out an absent value changes nothing |
| FilterModel.OrElse | storefront/src/hooks/useProductsSearchParams.ts:32 | `x \|\| d`: the value when non-empty, else the default |
| JsValues.NonEmpty | storefront/src/hooks/useProductsSearchParams.ts:14 | `x \|\| undefined`: never the empty string, same truthiness |
| JsValues.ToNumber | storefront/src/hooks/useProductsSearchParams.ts:18 | `Number(s)` is a number exactly for all-digit strings, 0 for "" |
| JsValues.ParseIntOfNatToString | storefront/src/hooks/useProductsSearchParams.ts:39 | `parseInt` reads back a number's decimal form |
| JsValues.JoinSplit | storefront/src/hooks/useProductsSearchParams.ts:18 | `split` loses nothing: joining the parts gives the string back |
| JsValues.SplitTwo | storefront/src/hooks/useProductsSearchParams.ts:18 | "a-b" with dash-free parts splits into exactly [a, b] |
| QueryParams.Get | storefront/src/hooks/useProductsSearchParams.ts:14 | `get` is absent exactly when no pair has the name |
| QueryParams.GetIsFirstOfGetAll | storefront/src/hooks/useProductsSearchParams.ts:28-29 | `get` is the first element of `getAll` |
| QueryParams.AppendGetAll | storefront/src/hooks/useProductsSearchParams.ts:58 | `append` adds the value at the end of its name's values and touches no other name |
| QueryParams.DeleteGetAll | storefront/src/hooks/useProductsSearchParams.ts:78-79 | `delete` removes every value of the name and touches no other name |
| QueryParams.DeleteAbsent | storefront/src/hooks/useProductsSearchParams.ts:78-79 | deleting an absent name changes nothing |
| QueryParams.SetGetAll | storefront/src/hooks/useProductsSearchParams.ts:52 | after `set` the name has exactly the one value, other names unchanged, and a delete afterwards leaves what a delete before would |
| QueryParams.SetAbsent | storefront/src/hooks/useProductsSearchParams.ts:52 | `set` of an absent name appends the pair |
| QueryParams.DeleteDelete | storefront/src/hooks/useProductsSearchParams.ts:78-79 | two deletes commute |
| ProductsSearchParams.CurrentFilters | storefront/src/hooks/useProductsSearchParams.ts:12-35 | the decoded record has no empty search, price range, sort or category; its price is the parse of its price range |
| ProductsSearchParams.CurrentPage | storefront/src/hooks/useProductsSearchParams.ts:38-40 | page 1 when `page` is absent or empty, else `parseInt` of it |
| ProductsSearchParams.Cursor | storefront/src/hooks/useProductsSearchParams.ts:42-44 | null exactly when there is no `cursor` parameter |
| ProductsSearchParams.DecodeReadsFilterKeys | storefront/src/hooks/useProductsSearchParams.ts:27-34 | the decoded record depends only on the five filter parameter names |
| ProductsSearchParams.CurrentPageReadsPage | storefront/src/hooks/useProductsSearchParams.ts:38-40 | the page number depends only on `page` |
| ProductsSearchParams.UpdateFilters | storefront/src/hooks/useProductsSearchParams.ts:47-83 | the loop of `set`/`append`/`delete` calls builds exactly the reference encoding: search, each category in order, price range, a sort other than "NAME", stock availability, each only when non-empty |
| ProductsSearchParams.CategoryEntries | storefront/src/hooks/useProductsSearchParams.ts:56-60 | one `category` pair per element, in list order |
| ProductsSearchParams.EncodedKeys | storefront/src/hooks/useProductsSearchParams.ts:48-79 | the encoding holds only the five filter names: never `page`, `cursor` or `loadMore` |
| ProductsSearchParams.EncodedSearch | storefront/src/hooks/useProductsSearchParams.ts:51-53 | the search appears once when non-empty, else not at all |
| ProductsSearchParams.EncodedCategories | storefront/src/hooks/useProductsSearchParams.ts:56-60 | the `category` values are exactly the list, in order |
| ProductsSearchParams.EncodedPriceRange | storefront/src/hooks/useProductsSearchParams.ts:63-65 | the price range appears once when non-empty |
| ProductsSearchParams.EncodedSortBy | storefront/src/hooks/useProductsSearchParams.ts:68-70 | the sort appears once unless empty or "NAME" |
| ProductsSearchParams.EncodedStockAvailability | storefront/src/hooks/useProductsSearchParams.ts:73-75 | the stock availability appears once when non-empty |
| ProductsSearchParams.DecodeEncode | storefront/src/hooks/useProductsSearchParams.ts:12-83 | decode after encode: non-empty search, price range and stock kept, categories minus empty strings, sort or "NAME" for empty, price recomputed from the range |
| ProductsSearchParams.DecodeEncodeCanonical | storefront/src/hooks/useProductsSearchParams.ts:12-83 | a record without empty strings whose price matches its range round-trips exactly |
| ProductsSearchParams.DecodeEncodeDecode | storefront/src/hooks/useProductsSearchParams.ts:12-83 | every decoded URL (with a non-empty stock value) is reproduced by encode-then-decode |
| ProductsSearchParams.EmptyStockNotReproduced | storefront/src/hooks/useProductsSearchParams.ts:31-75 | `?stockAvailability=` decodes to the empty string, which encode-then-decode turns into none |
| ProductsSearchParams.DecodeShoesExample | storefront/src/hooks/useProductsSearchParams.ts:12-35 | `?search=shoes&category=a&category=b&priceRange=100-500` decodes to the expected record |
| ProductsSearchParams.GetGraphQLFilter | storefront/src/hooks/useProductsSearchParams.ts:86-114 | search, categories and stock each appear only when non-empty, with the decoded value (stock is the URL's `stockAvailability` when non-empty), the price equals the decoder's price for the same range, and there is no sort field |
| ProductsSearchParams.UpdatePagination | storefront/src/hooks/useProductsSearchParams.ts:117-134 | `page` holds the number exactly when it is above 1, `cursor` exactly when the new one is non-empty, every other parameter and the decoded filters unchanged |
| ProductsSearchParams.SetKeepsDecoding | storefront/src/hooks/useProductsSearchParams.ts:117-144 | writing `page`, `cursor` or `loadMore` never changes the decoded filters |
| ProductsSearchParams.DeleteKeepsDecoding | storefront/src/hooks/useProductsSearchParams.ts:117-134 | deleting `page` or `cursor` never changes the decoded filters |
| ProductsSearchParams.LoadMore | storefront/src/hooks/useProductsSearchParams.ts:137-144 | `cursor` is the new cursor and `loadMore` is "true"; every other parameter, the filters and the page unchanged |
| CustomPagination.Range | storefront/src/ui/components/CustomPagination.tsx:26 | `Array.from` of consecutive page numbers, with its length |
| CustomPagination.GetVisiblePages | storefront/src/ui/components/CustomPagination.tsx:24-69 | the pushes and the loop produce exactly the reference window |
| CustomPagination.WindowAllFit | storefront/src/ui/components/CustomPagination.tsx:25-27 | when everything fits the result is exactly 1..total with no ellipsis |
| CustomPagination.WindowEnds | storefront/src/ui/components/CustomPagination.tsx:33-66 | otherwise the list starts with page 1 and ends with the last page |
| CustomPagination.MiddleBounds | storefront/src/ui/components/CustomPagination.tsx:35-46 | the middle pages lie within 2..total-1 |
| CustomPagination.WindowLayout | storefront/src/ui/components/CustomPagination.tsx:29-68 | the length and the item at every position of the window |
| CustomPagination.WindowIncreasing | storefront/src/ui/components/CustomPagination.tsx:33-66 | every page number lies in 1..total, and they strictly increase along the list |
| CustomPagination.LeadingEllipsis | storefront/src/ui/components/CustomPagination.tsx:49-51 | the leading ellipsis shows exactly when the first middle page is above 2 |
| CustomPagination.TrailingEllipsis | storefront/src/ui/components/CustomPagination.tsx:59-61 | the trailing ellipsis shows exactly when the last middle page is below total-1 |
| CustomPagination.MiddleShape | storefront/src/ui/components/CustomPagination.tsx:35-46 | for any maximum below the total, the start and end of the middle run near the beginning, near the end and in between; with a maximum of at least 3 the run is never empty |
| CustomPagination.WindowGaps | storefront/src/ui/components/CustomPagination.tsx:49-61 | every ellipsis sits between two pages more than one apart, and neighbouring pages are consecutive |
| CustomPagination.NumberCount | storefront/src/ui/components/CustomPagination.tsx:24 | a counting helper for WindowCount: the number of page (not ellipsis) entries of a strip, at most its length |
| CustomPagination.WindowCount | storefront/src/ui/components/CustomPagination.tsx:30-56 | for an odd maximum of at least 3 below the total, exactly that many page numbers show |
| CustomPagination.WindowHasCurrent | storefront/src/ui/components/CustomPagination.tsx:35-56 | for a maximum of at least 2, the current page is among the shown pages |
| CustomPagination.CurrentHiddenAtOne | storefront/src/ui/components/CustomPagination.tsx:35-61 | with a maximum of 1, page 3 of 5 is shown as page 1, two ellipses and page 5, without the current page |
| CustomPagination.PageClick | storefront/src/ui/components/CustomPagination.tsx:71-75 | a page change is reported only for another page within 1..total while not loading, and then with that page |
| CustomPagination.ClickVisiblePage | storefront/src/ui/components/CustomPagination.tsx:71-75 | clicking a shown page reports it exactly when it is not the current one and nothing is loading |
| CustomPagination.PrevNextAtEdges | storefront/src/ui/components/CustomPagination.tsx:99-148 | "previous" on page 1 and "next" on the last page report nothing |
| CustomPagination.Render | storefront/src/ui/components/CustomPagination.tsx:22-174 | nothing is rendered exactly when there is at most one page; otherwise the window, the first/last visibility, the previous/next disabled flags, and the `disabled={loading}` of the first, last and page buttons |
| CustomPagination.RenderDefault | storefront/src/ui/components/CustomPagination.tsx:18-22 | with the default maximum of 7 and more pages, 7 page numbers show, starting with 1 |
| CustomPagination.EndItem | storefront/src/ui/components/CustomPagination.tsx:194 | the last item shown is the page end or the total, whichever is smaller |
| CustomPagination.InfoFullPage | storefront/src/ui/components/CustomPagination.tsx:193-194 | a full page shows exactly one page of items, and the next page starts just after it |
| CustomPagination.InfoLastPage | storefront/src/ui/components/CustomPagination.tsx:193-194 | on the last page the range ends at the total and starts within it |
| CustomPagination.InfoEmpty | storefront/src/ui/components/CustomPagination.tsx:193-194 | with no items page 1 reads "1 to 0" |
| ProductFilter.Merge | storefront/src/ui/components/ProductFilter.tsx:47 | the spread replaces exactly the fields the patch gives and keeps every other field |
| ProductFilter.MergeNoChange | storefront/src/ui/components/ProductFilter.tsx:47 | the empty patch changes nothing |
| ProductFilter.MergeIdempotent | storefront/src/ui/components/ProductFilter.tsx:47 | merging a patch twice is merging it once |
| ProductFilter.MergeLaterWins | storefront/src/ui/components/ProductFilter.tsx:47 | two merges equal one merge of the combined patch, the later patch winning field by field |
| ProductFilter.EditCategories | storefront/src/ui/components/ProductFilter.tsx:165-169 | checking appends the id at the end; unchecking removes every copy, keeping the multiset of the rest |
| ProductFilter.UncheckKeepsOrder | storefront/src/ui/components/ProductFilter.tsx:168 | unchecking keeps the other ids in order |
| ProductFilter.UncheckAbsent | storefront/src/ui/components/ProductFilter.tsx:168 | unchecking an unselected id changes nothing |
| ProductFilter.CheckThenUncheck | storefront/src/ui/components/ProductFilter.tsx:165-169 | check then uncheck equals uncheck alone |
| ProductFilter.CheckUncheckRestores | storefront/src/ui/components/ProductFilter.tsx:165-169 | check then uncheck of a new id restores the list |
| ProductFilter.ActiveFiltersCount | storefront/src/ui/components/ProductFilter.tsx:72 | the badge is the number of categories plus at most two |
| ProductFilter.ActiveFiltersZero | storefront/src/ui/components/ProductFilter.tsx:72 | the badge is 0 exactly when no category is selected and price range and search are empty |
| ProductFilter.ActiveFiltersIgnoreSort | storefront/src/ui/components/ProductFilter.tsx:72 | the sort never counts |
| ProductFilter.ActiveFiltersCleared | storefront/src/ui/components/ProductFilter.tsx:61-72 | the badge is 0 after clearing |
| ProductFilter.ActiveFiltersCategoryEdit | storefront/src/ui/components/ProductFilter.tsx:165-169 | checking adds one; unchecking subtracts the number of copies removed |
| ProductFilter.Toggle | storefront/src/ui/components/ProductFilter.tsx:57-59 | the named section flips and every other section keeps its flag |
| ProductFilter.ToggleTwice | storefront/src/ui/components/ProductFilter.tsx:57-59 | toggling a section twice restores the map |
| ProductFilter.ToggleTwiceAbsent | storefront/src/ui/components/ProductFilter.tsx:57-59 | a section never set reads closed, and toggled twice it ends up closed |
| ProductFilter.InitialOpenSections | storefront/src/ui/components/ProductFilter.tsx:40-44 | categories start open, price and sort closed |
| ProductFilter.Sidebar.constructor | storefront/src/ui/components/ProductFilter.tsx:32-44 | the initial record equals the cleared one, the panel is closed and the sections are as above |
| ProductFilter.Sidebar.UpdateFilters | storefront/src/ui/components/ProductFilter.tsx:46-50 | the state becomes the merge and is reported; nothing else changes |
| ProductFilter.Sidebar.HandleSearch | storefront/src/ui/components/ProductFilter.tsx:52-55 | only the search changes; the merged record is reported, then the same query is searched |
| ProductFilter.Sidebar.ToggleSection | storefront/src/ui/components/ProductFilter.tsx:57-59 | the sections become the toggle of the old ones |
| ProductFilter.Sidebar.ClearFilters | storefront/src/ui/components/ProductFilter.tsx:61-70 | the record becomes the cleared one and is reported |
| ProductFilter.Sidebar.ToggleFilterPanel | storefront/src/ui/components/ProductFilter.tsx:79 | the mobile panel flag flips |
| ProductFilter.Sidebar.CategoryChanged | storefront/src/ui/components/ProductFilter.tsx:165-169 | the categories become the checkbox edit of the old ones and the record is reported |
| ProductFilter.Sidebar.SelectSort | storefront/src/ui/components/ProductFilter.tsx:138 | the sort becomes the chosen option id |
| ProductFilter.Sidebar.SelectPriceRange | storefront/src/ui/components/ProductFilter.tsx:201 | the price range becomes the chosen range id |
| ProductFilter.ToggleTwiceThenClear | storefront/src/ui/components/ProductFilter.tsx:57-72 | toggling a section twice then clearing restores the sections and leaves a badge of 0 |
| ProductsPage.BuildRequest | storefront/src/screens/products/ProductsPage.tsx:67-89 | the search query exactly when the search is non-empty, sent DESC exactly when the sort starts with "-"; page size 12; `after` is the cursor only for load-more |
| ProductsPage.ListRequestIgnoresFilters | storefront/src/screens/products/ProductsPage.tsx:83-89 | without a search the request does not depend on the other filters |
| ProductsPage.SortDirections | storefront/src/screens/products/ProductsPage.tsx:73-75 | "-PRICE" is sent DESC and "PRICE" ASC |
| ProductsPage.Receive | storefront/src/screens/products/ProductsPage.tsx:92-104 | a connection replaces the list or, for load-more, appends to it, and overwrites cursor, next flag and count (0 when falsy); any other response changes nothing |
| ProductsPage.ReceiveReplaces | storefront/src/screens/products/ProductsPage.tsx:97-98 | a fresh response does not depend on the previous list |
| ProductsPage.ReceiveCountFalsy | storefront/src/screens/products/ProductsPage.tsx:103 | a missing or zero count shows as 0 |
| ProductsPage.LoadMoreAccumulates | storefront/src/screens/products/ProductsPage.tsx:95-96 | successive load-more pages end as the old list followed by every page's nodes in order |
| ProductsPage.Screen.constructor | storefront/src/screens/products/ProductsPage.tsx:27-38 | the initial products and cursor, not loading, no next page, count 0, cleared filters |
| ProductsPage.Screen.BeginFetch | storefront/src/screens/products/ProductsPage.tsx:62-90 | sets loading and sends the request `BuildRequest` describes |
| ProductsPage.Screen.CompleteFetch | storefront/src/screens/products/ProductsPage.tsx:92-109 | the list becomes `Receive` of the old one, and loading ends in every case |
| ProductsPage.Screen.HandleFilterChange | storefront/src/screens/products/ProductsPage.tsx:112-116 | stores the filters, forgets the cursor and fetches the first page |
| ProductsPage.Screen.HandleSearch | storefront/src/screens/products/ProductsPage.tsx:118-123 | replaces only the search, forgets the cursor and fetches the first page |
| ProductsPage.Screen.LoadMore | storefront/src/screens/products/ProductsPage.tsx:131-135 | a fetch starts exactly when there is a next page and nothing is loading; otherwise nothing changes |
| ProductsPage.LoadMoreTwice | storefront/src/screens/products/ProductsPage.tsx:131-135 | a second load-more while the first is in flight does nothing |
| ProductDetail.EnabledIffInStock | storefront/src/screens/products/product-detail/ProductDetail.tsx:342-365 | with a non-negative stock the buttons are enabled exactly when in stock and idle |
| ProductDetail.NoStockFigure | storefront/src/screens/products/product-detail/ProductDetail.tsx:275-285 | a missing variant or stock reads as out of stock and disabled |
| ProductDetail.Sku | storefront/src/screens/products/product-detail/ProductDetail.tsx:259 | the last eight characters of the id, or the whole id when shorter |
| ProductDetail.SkuIsSuffix | storefront/src/screens/products/product-detail/ProductDetail.tsx:259 | an id ends in its SKU |
| ProductDetail.AddedMessageShowsQuantity | storefront/src/screens/products/product-detail/ProductDetail.tsx:115 | the number in the success message reads back as the quantity |
| ProductDetail.Page.constructor | storefront/src/screens/products/product-detail/ProductDetail.tsx:60-70 | first variant, quantity 1, not favourite, not adding, the current image or none when it is missing (`currentImage ?? {}`), a hidden alert and the given URL parameters |
| ProductDetail.Page.ShowAlert | storefront/src/screens/products/product-detail/ProductDetail.tsx:74-75 | the alert shows with the given kind, title and message |
| ProductDetail.Page.HideAlert | storefront/src/screens/products/product-detail/ProductDetail.tsx:77-79 | the alert is hidden, keeping its contents |
| ProductDetail.Page.Decrement | storefront/src/screens/products/product-detail/ProductDetail.tsx:322 | the quantity drops by one but not below 1; every other field is unchanged |
| ProductDetail.Page.Increment | storefront/src/screens/products/product-detail/ProductDetail.tsx:329 | the quantity rises by one; every other field is unchanged |
| ProductDetail.Page.HandleVariantChange | storefront/src/screens/products/product-detail/ProductDetail.tsx:92-100 | the variant is selected, the image becomes its first media, and `variant` holds its id with every other URL parameter unchanged; quantity, favourite, adding flag and alert are unchanged |
| ProductDetail.Page.SelectImage | storefront/src/screens/products/product-detail/ProductDetail.tsx:202 | the clicked image is selected; every other field is unchanged |
| ProductDetail.Page.ToggleFavorite | storefront/src/screens/products/product-detail/ProductDetail.tsx:349 | the favourite flag flips; every other field is unchanged |
| ProductDetail.Page.StartPurchase | storefront/src/screens/products/product-detail/ProductDetail.tsx:103-130 | with no variant id, a warning shows and nothing else changes; otherwise adding starts with the variant and quantity and the alert is kept; variant, quantity, favourite, image and URL parameters are unchanged either way |
| ProductDetail.Page.StartAddToCart | storefront/src/screens/products/product-detail/ProductDetail.tsx:102-114 | the same contract as StartPurchase, with the add-to-cart warning |
| ProductDetail.Page.FinishAddToCart | storefront/src/screens/products/product-detail/ProductDetail.tsx:114-121 | success shows the quantity message, failure the error alert; adding ends either way; every other field is unchanged |
| ProductDetail.Page.StartBuyNow | storefront/src/screens/products/product-detail/ProductDetail.tsx:124-132 | the same contract as StartPurchase, with the purchase warning |
| ProductDetail.Page.FinishBuyNow | storefront/src/screens/products/product-detail/ProductDetail.tsx:132-140 | success navigates to `/<channel>/cart`, failure shows the error alert; adding ends either way; every other field is unchanged |
| ProductDetail.AfterPresses | storefront/src/screens/products/product-detail/ProductDetail.tsx:322-329 | a run of plus and minus presses from a quantity of at least 1 ends at least 1, and at most one above the start per press |
| ProductDetail.MinusRunReachesOne | storefront/src/screens/products/product-detail/ProductDetail.tsx:322 | enough minus presses bring any quantity down to exactly 1 and no lower |
| ProductDetail.PlusRunAdds | storefront/src/screens/products/product-detail/ProductDetail.tsx:329 | n plus presses add exactly n |
| ProductDetail.StepperNeverBelowOne | storefront/src/screens/products/product-detail/ProductDetail.tsx:322-329 | pressing the buttons in any given order leaves the quantity at AfterPresses of the old one, so at least 1, with every other field unchanged |
| ProductDetail.AddToCartRoundTrip | storefront/src/screens/products/product-detail/ProductDetail.tsx:102-122 | a full add sends the selected variant and quantity and ends with adding off |
| SectionRoute.Guard | dashboard/src/auth/components/SectionRoute.tsx:28-44 | nothing exactly while the user is undefined; for a known user the route exactly when the permission check passes |
| SectionRoute.UndefinedUserRendersNothing | dashboard/src/auth/components/SectionRoute.tsx:28-30 | an undefined user gets nothing whatever the permissions |
| SectionRoute.NoPermissionsGrants | dashboard/src/auth/components/SectionRoute.tsx:33-35 | no permission list grants the route |
| SectionRoute.EmptyListAsksHelpers | dashboard/src/auth/components/SectionRoute.tsx:33-41 | an empty list takes no shortcut; the helper for the mode decides |
| SectionRoute.DefaultMatchIsAll | dashboard/src/auth/components/SectionRoute.tsx:17-21 | leaving out the mode is asking for "all" |
| SectionRoute.KnownUserRouteOrNotFound | dashboard/src/auth/components/SectionRoute.tsx:44 | a known user gets the route or the not-found page |
| SectionRoute.AllImpliesAny | dashboard/src/auth/components/SectionRoute.tsx:37-41 | when holding all implies holding any, "all" access implies "any" access |
| LoginMessages.GetErrorMessage | dashboard/src/auth/components/LoginPage/messages.ts:32-51 | every code gives one of the five descriptors; an unlisted code gives the unknown-error one |
| LoginMessages.CredentialCodes | dashboard/src/auth/components/LoginPage/messages.ts:34-47 | `loginError` and `invalidCredentials` give the login error |
| LoginMessages.UnknownCodes | dashboard/src/auth/components/LoginPage/messages.ts:36-49 | external, unknown and unlisted codes give the unknown-error message |
| LoginMessages.SameNameCodes | dashboard/src/auth/components/LoginPage/messages.ts:40-45 | server, permission and delay codes give the message of the same name |
| LoginMessages.DistinctIds | dashboard/src/auth/components/LoginPage/messages.ts:4-30 | the five descriptors have distinct ids |
| LoginMessages.EveryMessageUsed | dashboard/src/auth/components/LoginPage/messages.ts:4-51 | each descriptor is what a listed code maps to: the code at the same position of the code list |
| SeasonalCollections.LowerChar | storefront/src/screens/home/components/SeasonalCollectionSection.tsx:98 | lowercasing keeps whitespace and dashes as they are |
| SeasonalCollections.Lower | storefront/src/screens/home/components/SeasonalCollectionSection.tsx:98 | `toLowerCase` maps every character and leaves no uppercase letter |
| SeasonalCollections.Dashes | storefront/src/screens/home/components/SeasonalCollectionSection.tsx:98 | `replace(/\s+/g, "-")` leaves no whitespace and never lengthens |
| SeasonalCollections.DashesRun | storefront/src/screens/home/components/SeasonalCollectionSection.tsx:98 | a maximal whitespace run becomes exactly one dash |
| SeasonalCollections.SlugShape | storefront/src/screens/home/components/SeasonalCollectionSection.tsx:98 | a slug has no whitespace or uppercase letter and is no longer than the name |
| SeasonalCollections.SlugKeepsCharacters | storefront/src/screens/home/components/SeasonalCollectionSection.tsx:98 | besides whitespace and dashes, the slug holds the name's characters in order, lowercased |
| SeasonalCollections.SlugIdempotent | storefront/src/screens/home/components/SeasonalCollectionSection.tsx:98 | slugging a slug gives it back |
| SeasonalCollections.SlugTwoWords | storefront/src/screens/home/components/SeasonalCollectionSection.tsx:98 | two words with one space slug to the lowercased words joined by a dash |
| SeasonalCollections.Href | storefront/src/screens/home/components/SeasonalCollectionSection.tsx:98 | the link is `/collections/` followed by the slug |
| SeasonalCollections.CollectionLinks | storefront/src/screens/home/components/SeasonalCollectionSection.tsx:9-98 | the four names link to summer-collection, winter-essentials, autumn-styles and spring-fashion |

## Left out

- Percent-encoding of `URLSearchParams.toString` (the application/x-www-form-urlencoded serializer, section 5 of the WHATWG URL Standard) and the path prefix of the pushed URL. The model stops at the parameter list.
- `router.push` and `router.replace`: represented by the parameter list or path they receive, returned by the method.
- Network calls (`executeGraphQL`, `addItemAction`): the response or the success flag is a parameter of the completing method.
- Interleaving of overlapping asynchronous fetches. One search keystroke starts two fetches, through `onFilterChange` and `onSearch`. Here the transitions are taken one at a time.
- The alert's five-second `setTimeout`: the hide it schedules is the separate `HideAlert` step.
- `intl.formatMessage`: `GetErrorMessage` returns the descriptor that would be formatted.
- The "product not found" screen, `viewMode`, the console logging, and the cart handler of the list screen, which only logs.
- The full JavaScript `Number` and `parseInt` grammars (whitespace, signs, decimals, exponents, hex, Infinity) and non-integer numbers. Unicode whitespace and Unicode case mapping are left out too: letters, digits and whitespace are ASCII.
- CustomPagination.WindowHasCurrent: stated only for a maximum of at least 2. With a maximum of 1 the code hides a middle current page behind two ellipses, as CustomPagination.CurrentHiddenAtOne shows.
- CustomPagination.LeadingEllipsis, CustomPagination.TrailingEllipsis, CustomPagination.WindowGaps, CustomPagination.WindowCount: stated only for a maximum of at least 3. Below that the code can put two ellipses side by side, and no property is claimed there.
- ProductDetail.EnabledIffInStock: stated for a non-negative stock figure. A negative `quantityAvailable` leaves the buttons enabled while the indicator shows out of stock.
- The section guard's `hasAllPermissions` and `hasAnyPermissions`, and the user context: passed in as parameters, since their definitions are not part of this model.
- Behaviour the code does not have: a sort-to-direction table beyond the "-" prefix, stale-response discard, search debouncing, and mutual exclusion of `price` and `priceRange`.
- The presentational components (product cards, skeletons, hero, feature, newsletter, testimonial, showcase sections, carousels, tabs, share button, layouts) and the configuration and other message catalogs. They are markup over constants or over code outside this model.
