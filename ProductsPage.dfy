// The product list screen: which query a fetch sends, how a response
// replaces or extends the list, and the guards around load-more.

module ProductsPage {
  import opened Wrappers
  import opened JsValues
  import opened FilterModel
  import ProductFilter

  /** A product as listed; only its identity matters here. */
  datatype Product = Product(id: string)

  datatype PageInfo = PageInfo(endCursor: Option<string>, hasNextPage: bool)

  /** The `products` connection of a response: the edge nodes, the page info and the count. */
  datatype Connection = Connection(nodes: seq<Product>, pageInfo: PageInfo, totalCount: Option<nat>)

  /** What the awaited query produced: it threw, it had no `products`, or it had a connection. */
  datatype Response = Failed | NoProducts | Products(connection: Connection)

  datatype Direction = ASC | DESC

  /** The page size of every request. */
  const PageSize: nat := 12

  /** The two queries the screen sends: the search query and the plain paginated list. */
  datatype Request =
    | SearchRequest(search: string, sortBy: string, direction: Direction, first: nat, after: Option<string>, channel: string)
    | ListRequest(first: nat, after: Option<string>, channel: string)

  /**
   * The query `fetchProducts` sends: the search query when the search is
   * non-empty, else the plain list; `after` is the cursor only for load-more.
   */
  function BuildRequest(filters: FilterState, loadMore: bool, cursor: Option<string>, channel: string): (r: Request)
    ensures r.SearchRequest? <==> Truthy(filters.search)
    ensures r.first == PageSize && r.channel == channel
    ensures r.after == if loadMore then cursor else None
    ensures r.SearchRequest? ==> r.search == filters.search.value && r.sortBy == filters.sortBy
    ensures r.SearchRequest? ==> (r.direction == DESC <==> StartsWith(filters.sortBy, "-"))
  {
    var after := if loadMore then cursor else None;
    if Truthy(filters.search) then
      SearchRequest(filters.search.value, filters.sortBy,
        if StartsWith(filters.sortBy, "-") then DESC else ASC, PageSize, after, channel)
    else
      ListRequest(PageSize, after, channel)
  }

  /** Without a search, categories, price range, sort and stock filter do not reach the request. */
  lemma ListRequestIgnoresFilters(f: FilterState, g: FilterState, loadMore: bool, cursor: Option<string>, channel: string)
    requires !Truthy(f.search) && !Truthy(g.search)
    ensures BuildRequest(f, loadMore, cursor, channel) == BuildRequest(g, loadMore, cursor, channel)
  {
  }

  /** The sort "-PRICE" is sent descending, "PRICE" ascending. */
  lemma SortDirections(f: FilterState, loadMore: bool, cursor: Option<string>, channel: string)
    requires Truthy(f.search)
    ensures BuildRequest(f.(sortBy := "-PRICE"), loadMore, cursor, channel).direction == DESC
    ensures BuildRequest(f.(sortBy := "PRICE"), loadMore, cursor, channel).direction == ASC
  {
    assert !StartsWith("PRICE", "-") by {
      assert "PRICE"[0] != '-';
    }
  }

  /** The part of the screen's state a response updates. */
  datatype ListState = ListState(products: seq<Product>, cursor: Option<string>, hasNextPage: bool, totalCount: nat)

  /**
   * The effect of a response: a connection replaces the list (or extends it
   * for load-more) and overwrites cursor, next-page flag and count; a failed
   * or empty response leaves everything as it was.
   */
  function Receive(s: ListState, loadMore: bool, response: Response): (r: ListState)
    ensures !response.Products? ==> r == s
    ensures response.Products? ==>
      r.cursor == response.connection.pageInfo.endCursor
      && r.hasNextPage == response.connection.pageInfo.hasNextPage
      && r.totalCount == response.connection.totalCount.GetOr(0)
    ensures response.Products? && loadMore ==>
      |r.products| == |s.products| + |response.connection.nodes|
      && r.products[..|s.products|] == s.products
      && r.products[|s.products|..] == response.connection.nodes
    ensures response.Products? && !loadMore ==> r.products == response.connection.nodes
  {
    match response
    case Products(c) =>
      var nodes := c.nodes;
      ListState(if loadMore then s.products + nodes else nodes,
        c.pageInfo.endCursor, c.pageInfo.hasNextPage, c.totalCount.GetOr(0))
    case _ => s
  }

  /** A fresh (non-load-more) response does not depend on what was listed before. */
  lemma ReceiveReplaces(s: ListState, t: ListState, response: Response)
    requires response.Products?
    ensures Receive(s, false, response) == Receive(t, false, response)
  {
  }

  /** A missing or zero count shows as 0. */
  lemma ReceiveCountFalsy(s: ListState, loadMore: bool, c: Connection)
    requires c.totalCount == None || c.totalCount == Some(0)
    ensures Receive(s, loadMore, Products(c)).totalCount == 0
  {
  }

  /** Every node of a sequence of responses, in order; responses without products add none. */
  function AllNodes(responses: seq<Response>): seq<Product> {
    if responses == [] then []
    else (if responses[0].Products? then responses[0].connection.nodes else []) + AllNodes(responses[1..])
  }

  /** Applies a sequence of load-more responses in order. */
  function ReceiveAll(s: ListState, responses: seq<Response>): (r: ListState)
    decreases |responses|
  {
    if responses == [] then s else ReceiveAll(Receive(s, true, responses[0]), responses[1..])
  }

  /** Successive load-more pages accumulate: the list ends as the old one followed by every page's nodes. */
  lemma {:induction false} LoadMoreAccumulates(s: ListState, responses: seq<Response>)
    ensures ReceiveAll(s, responses).products == s.products + AllNodes(responses)
    decreases |responses|
  {
    if responses != [] {
      var s' := Receive(s, true, responses[0]);
      LoadMoreAccumulates(s', responses[1..]);
      assert s'.products == s.products + (if responses[0].Products? then responses[0].connection.nodes else []);
    }
  }

  /** A fetch in flight: the request it sent and whether it was a load-more. */
  datatype PendingFetch = PendingFetch(request: Request, loadMore: bool)

  /** The screen's state. */
  class Screen {
    const channel: string
    var products: seq<Product>
    var loading: bool
    var cursor: Option<string>
    var hasNextPage: bool
    var totalCount: nat
    var currentFilters: FilterState

    function List(): ListState
      reads this
    {
      ListState(products, cursor, hasNextPage, totalCount)
    }

    constructor(channel: string, initialProducts: seq<Product>, initialCursor: Option<string>)
      ensures this.channel == channel && products == initialProducts && cursor == initialCursor
      ensures !loading && !hasNextPage && totalCount == 0 && currentFilters == ProductFilter.Cleared
    {
      this.channel := channel;
      products := initialProducts;
      loading := false;
      cursor := initialCursor;
      hasNextPage := false;
      totalCount := 0;
      currentFilters := ProductFilter.Cleared;
    }

    /** The synchronous start of `fetchProducts`: set `loading` and send the request. */
    method BeginFetch(filters: FilterState, loadMore: bool) returns (fetch: PendingFetch)
      modifies this
      ensures loading && fetch == PendingFetch(BuildRequest(filters, loadMore, old(cursor), channel), loadMore)
      ensures List() == old(List()) && currentFilters == old(currentFilters)
    {
      loading := true;
      fetch := PendingFetch(BuildRequest(filters, loadMore, cursor, channel), loadMore);
    }

    /** The end of `fetchProducts`: apply the response, then clear `loading` whatever happened. */
    method CompleteFetch(fetch: PendingFetch, response: Response)
      modifies this
      ensures List() == Receive(old(List()), fetch.loadMore, response)
      ensures !loading && currentFilters == old(currentFilters)
    {
      if response.Products? {
        var c := response.connection;
        var newProducts := c.nodes;
        if fetch.loadMore {
          products := products + newProducts;
        } else {
          products := newProducts;
        }
        cursor := c.pageInfo.endCursor;
        hasNextPage := c.pageInfo.hasNextPage;
        totalCount := if c.totalCount.Some? then c.totalCount.value else 0;
      }
      loading := false;
    }

    /** New filters from the sidebar: store them, forget the cursor, fetch the first page. */
    method HandleFilterChange(filters: FilterState) returns (fetch: PendingFetch)
      modifies this
      ensures currentFilters == filters && cursor == None && loading
      ensures products == old(products) && hasNextPage == old(hasNextPage) && totalCount == old(totalCount)
      ensures fetch == PendingFetch(BuildRequest(filters, false, None, channel), false)
    {
      currentFilters := filters;
      cursor := None;
      fetch := BeginFetch(filters, false);
    }

    /** A new query: replace only the search of the current filters, forget the cursor, fetch. */
    method HandleSearch(query: string) returns (fetch: PendingFetch)
      modifies this
      ensures currentFilters == old(currentFilters).(search := Some(query)) && cursor == None && loading
      ensures products == old(products) && hasNextPage == old(hasNextPage) && totalCount == old(totalCount)
      ensures fetch == PendingFetch(BuildRequest(currentFilters, false, None, channel), false)
    {
      var newFilters := currentFilters.(search := Some(query));
      currentFilters := newFilters;
      cursor := None;
      fetch := BeginFetch(newFilters, false);
    }

    /** The "load more" button: fetch the next page only when there is one and nothing is loading. */
    method LoadMore() returns (fetch: Option<PendingFetch>)
      modifies this
      ensures fetch.Some? <==> old(hasNextPage) && !old(loading)
      ensures fetch.Some? ==> loading && fetch.value == PendingFetch(BuildRequest(currentFilters, true, cursor, channel), true)
      ensures List() == old(List()) && currentFilters == old(currentFilters)
      ensures fetch.None? ==> loading == old(loading)
    {
      if hasNextPage && !loading {
        var f := BeginFetch(currentFilters, true);
        fetch := Some(f);
      } else {
        fetch := None;
      }
    }
  }

  /** A second "load more" while the first is in flight does nothing; the first one's page is appended. */
  method LoadMoreTwice(screen: Screen, response: Response) returns (first: Option<PendingFetch>, second: Option<PendingFetch>)
    requires screen.hasNextPage && !screen.loading
    modifies screen
    ensures first.Some? && first.value.request.after == old(screen.cursor) && second.None?
    ensures screen.List() == Receive(old(screen.List()), true, response) && !screen.loading
  {
    first := screen.LoadMore();
    second := screen.LoadMore();
    screen.CompleteFetch(first.value, response);
  }
}
