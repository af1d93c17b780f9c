// The numbered pager: which page buttons and ellipses are shown, which clicks
// change the page, and the "showing X to Y" range of the info line.

module CustomPagination {
  import opened Wrappers

  /** One entry of the pager strip: a numbered page button or an ellipsis. */
  datatype PageItem = Page(n: int) | Ellipsis

  function Max(a: int, b: int): int { if a >= b then a else b }
  function Min(a: int, b: int): int { if a <= b then a else b }

  /** The consecutive page buttons `lo`, `lo + 1`, ..., `hi` (none when `lo > hi`). */
  function Range(lo: int, hi: int): (r: seq<PageItem>)
    ensures |r| == if lo <= hi then hi - lo + 1 else 0
    ensures forall i :: 0 <= i < |r| ==> r[i] == Page(lo + i)
  {
    seq(if lo <= hi then hi - lo + 1 else 0, i requires 0 <= i => Page(lo + i))
  }

  lemma RangeSnoc(lo: int, hi: int)
    requires lo <= hi
    ensures Range(lo, hi) == Range(lo, hi - 1) + [Page(hi)]
  {
    assert Range(lo, hi)[..hi - lo] == Range(lo, hi - 1);
  }

  /** Half of the window, rounded down (`Math.floor(maxVisiblePages / 2)`). */
  function Half(maxVisible: int): int {
    maxVisible / 2
  }

  /** The first middle page, after the adjustment near the end of the range. */
  function StartPage(current: int, total: int, maxVisible: int): int {
    if current > total - Half(maxVisible) then Max(2, total - maxVisible + 2)
    else Max(2, current - Half(maxVisible) + 1)
  }

  /** The last middle page, after the adjustment near the beginning of the range. */
  function EndPage(current: int, total: int, maxVisible: int): int {
    if current <= Half(maxVisible) then Min(total - 1, maxVisible - 1)
    else Min(total - 1, current + Half(maxVisible) - 1)
  }

  /**
   * The strip `getVisiblePages` returns: every page when they all fit, else
   * page 1, an ellipsis when the middle does not start at 2, the middle pages,
   * an ellipsis when the middle does not end at `total - 1`, and the last page.
   */
  function Window(current: int, total: int, maxVisible: int): seq<PageItem> {
    if total <= maxVisible then Range(1, total)
    else
      var s, e := StartPage(current, total, maxVisible), EndPage(current, total, maxVisible);
      [Page(1)] + (if s > 2 then [Ellipsis] else []) + Range(s, e)
      + (if e < total - 1 then [Ellipsis] else []) + (if total > 1 then [Page(total)] else [])
  }

  /** Builds the strip by pushing entries one at a time, as the component does. */
  method GetVisiblePages(current: int, total: int, maxVisible: int) returns (pages: seq<PageItem>)
    ensures pages == Window(current, total, maxVisible)
  {
    if total <= maxVisible {
      pages := Range(1, total);
      return;
    }
    pages := [];
    var half := maxVisible / 2;
    pages := pages + [Page(1)];
    var startPage := Max(2, current - half + 1);
    var endPage := Min(total - 1, current + half - 1);
    if current <= half {
      endPage := Min(total - 1, maxVisible - 1);
    }
    if current > total - half {
      startPage := Max(2, total - maxVisible + 2);
    }
    assert startPage == StartPage(current, total, maxVisible) && endPage == EndPage(current, total, maxVisible);
    ghost var lead: seq<PageItem> := if startPage > 2 then [Ellipsis] else [];
    ghost var trail: seq<PageItem> := if endPage < total - 1 then [Ellipsis] else [];
    ghost var last: seq<PageItem> := if total > 1 then [Page(total)] else [];
    if startPage > 2 {
      pages := pages + [Ellipsis];
    }
    assert pages == [Page(1)] + lead;
    ghost var prefix := pages;
    var i := startPage;
    while i <= endPage
      invariant startPage <= i <= Max(startPage, endPage + 1)
      invariant pages == prefix + Range(startPage, i - 1)
      decreases endPage - i
    {
      RangeSnoc(startPage, i);
      pages := pages + [Page(i)];
      i := i + 1;
    }
    ghost var mid := Range(startPage, endPage);
    assert pages == [Page(1)] + lead + mid;
    if endPage < total - 1 {
      pages := pages + [Ellipsis];
    }
    assert pages == [Page(1)] + lead + mid + trail;
    if total > 1 {
      pages := pages + [Page(total)];
    }
    assert pages == [Page(1)] + lead + mid + trail + last;
  }

  /** The number of numbered buttons in a strip. */
  function NumberCount(items: seq<PageItem>): (r: nat)
    ensures r <= |items|
  {
    if items == [] then 0 else (if items[0].Page? then 1 else 0) + NumberCount(items[1..])
  }

  lemma {:induction false} NumberCountConcat(a: seq<PageItem>, b: seq<PageItem>)
    ensures NumberCount(a + b) == NumberCount(a) + NumberCount(b)
  {
    if a == [] {
      assert a + b == b;
    } else {
      assert (a + b)[1..] == a[1..] + b;
      NumberCountConcat(a[1..], b);
    }
  }

  lemma {:induction false} NumberCountRange(lo: int, hi: int)
    ensures NumberCount(Range(lo, hi)) == |Range(lo, hi)|
    decreases if lo <= hi then hi - lo + 1 else 0
  {
    if lo <= hi {
      assert Range(lo, hi)[1..] == Range(lo + 1, hi);
      NumberCountRange(lo + 1, hi);
    }
  }

  /** When every page fits, the strip is exactly the pages 1 to `total`, with no ellipsis. */
  lemma WindowAllFit(current: int, total: int, maxVisible: int)
    requires 1 < total <= maxVisible
    ensures |Window(current, total, maxVisible)| == total
    ensures forall i :: 0 <= i < total ==> Window(current, total, maxVisible)[i] == Page(i + 1)
  {
  }

  /** Otherwise the strip starts with page 1 and ends with the last page. */
  lemma WindowEnds(current: int, total: int, maxVisible: int)
    requires 1 < total && maxVisible < total
    ensures |Window(current, total, maxVisible)| >= 2
    ensures Window(current, total, maxVisible)[0] == Page(1)
    ensures Window(current, total, maxVisible)[|Window(current, total, maxVisible)| - 1] == Page(total)
  {
  }

  /** The middle pages lie strictly between the first and the last page. */
  lemma MiddleBounds(current: int, total: int, maxVisible: int)
    requires 1 < total && maxVisible < total
    ensures 2 <= StartPage(current, total, maxVisible)
    ensures EndPage(current, total, maxVisible) <= total - 1
  {
  }

  /** The number of ellipses before the middle pages (0 or 1). */
  function LeadLength(s: int): nat { if s > 2 then 1 else 0 }

  /** The number of ellipses after the middle pages (0 or 1). */
  function TrailLength(e: int, total: int): nat { if e < total - 1 then 1 else 0 }

  /**
   * The entry at position `i` of a strip with middle pages `s` to `e`:
   * page 1, the leading ellipsis, the middle pages, the trailing ellipsis, the last page.
   */
  function ItemAt(s: int, e: int, total: int, i: int): PageItem {
    var k := 1 + LeadLength(s);
    var m := k + |Range(s, e)|;
    if i == 0 then Page(1)
    else if i < k then Ellipsis
    else if i < m then Page(s + i - k)
    else if i < m + TrailLength(e, total) then Ellipsis
    else Page(total)
  }

  /** Position by position, a strip with more pages than fit follows `ItemAt`. */
  lemma WindowLayout(current: int, total: int, maxVisible: int)
    requires 1 < total && maxVisible < total
    ensures |Window(current, total, maxVisible)| ==
      2 + LeadLength(StartPage(current, total, maxVisible))
      + |Range(StartPage(current, total, maxVisible), EndPage(current, total, maxVisible))|
      + TrailLength(EndPage(current, total, maxVisible), total)
    ensures forall i :: 0 <= i < |Window(current, total, maxVisible)| ==>
      Window(current, total, maxVisible)[i] ==
      ItemAt(StartPage(current, total, maxVisible), EndPage(current, total, maxVisible), total, i)
  {
    var s, e := StartPage(current, total, maxVisible), EndPage(current, total, maxVisible);
    var lead: seq<PageItem> := if s > 2 then [Ellipsis] else [];
    var trail: seq<PageItem> := if e < total - 1 then [Ellipsis] else [];
    var mid := Range(s, e);
    var w := Window(current, total, maxVisible);
    var p := [Page(1)] + lead;
    var q := p + mid;
    var r := q + trail;
    assert w == r + [Page(total)];
    forall i | 0 <= i < |w| ensures w[i] == ItemAt(s, e, total, i) {
      if i < |p| {
        assert w[i] == p[i];
      } else if i < |q| {
        assert w[i] == q[i] == mid[i - |p|];
      } else if i < |r| {
        assert w[i] == r[i] == trail[i - |q|];
      }
    }
  }

  /** Page numbers strictly increase along the strip and stay within 1 to `total`. */
  lemma {:induction false} WindowIncreasing(current: int, total: int, maxVisible: int)
    requires 1 < total
    ensures forall i :: 0 <= i < |Window(current, total, maxVisible)| && Window(current, total, maxVisible)[i].Page? ==>
      1 <= Window(current, total, maxVisible)[i].n <= total
    ensures forall i, j :: (0 <= i < j < |Window(current, total, maxVisible)|
      && Window(current, total, maxVisible)[i].Page? && Window(current, total, maxVisible)[j].Page?) ==>
      Window(current, total, maxVisible)[i].n < Window(current, total, maxVisible)[j].n
  {
    if maxVisible < total {
      WindowLayout(current, total, maxVisible);
      MiddleBounds(current, total, maxVisible);
    }
  }

  /** The leading ellipsis appears exactly when the middle does not start at page 2. */
  lemma LeadingEllipsis(current: int, total: int, maxVisible: int)
    requires 3 <= maxVisible < total
    ensures Window(current, total, maxVisible)[1] == Ellipsis <==> StartPage(current, total, maxVisible) > 2
  {
    MiddleShape(current, total, maxVisible);
    WindowLayout(current, total, maxVisible);
  }

  /** The trailing ellipsis appears exactly when the middle does not end at page `total - 1`. */
  lemma TrailingEllipsis(current: int, total: int, maxVisible: int)
    requires 3 <= maxVisible < total
    ensures Window(current, total, maxVisible)[|Window(current, total, maxVisible)| - 2] == Ellipsis
      <==> EndPage(current, total, maxVisible) < total - 1
  {
    MiddleShape(current, total, maxVisible);
    WindowLayout(current, total, maxVisible);
  }

  /**
   * The middle run: near the start it is 2 to `maxVisible - 1`, near the end
   * `total - maxVisible + 2` to `total - 1`, and otherwise `current - half + 1`
   * to `current + half - 1`. With a window of at least three it is never empty.
   */
  lemma MiddleShape(current: int, total: int, maxVisible: int)
    requires 1 <= maxVisible < total
    ensures 3 <= maxVisible ==> StartPage(current, total, maxVisible) <= EndPage(current, total, maxVisible)
    ensures current <= Half(maxVisible) ==>
      StartPage(current, total, maxVisible) == 2 && EndPage(current, total, maxVisible) == maxVisible - 1
    ensures current > total - Half(maxVisible) ==>
      StartPage(current, total, maxVisible) == total - maxVisible + 2 && EndPage(current, total, maxVisible) == total - 1
    ensures Half(maxVisible) < current <= total - Half(maxVisible) ==>
      StartPage(current, total, maxVisible) == current - Half(maxVisible) + 1
      && EndPage(current, total, maxVisible) == current + Half(maxVisible) - 1
  {
  }

  /**
   * With a window of at least three, each ellipsis sits between two page buttons
   * whose numbers leave a real gap (so no two ellipses touch), and two
   * neighbouring page buttons are consecutive pages.
   */
  lemma {:induction false} WindowGaps(current: int, total: int, maxVisible: int)
    requires 3 <= maxVisible < total
    ensures forall i :: 0 <= i < |Window(current, total, maxVisible)| && Window(current, total, maxVisible)[i].Ellipsis? ==>
      0 < i < |Window(current, total, maxVisible)| - 1
      && Window(current, total, maxVisible)[i - 1].Page? && Window(current, total, maxVisible)[i + 1].Page?
      && Window(current, total, maxVisible)[i + 1].n > Window(current, total, maxVisible)[i - 1].n + 1
    ensures forall i :: (0 <= i < |Window(current, total, maxVisible)| - 1
      && Window(current, total, maxVisible)[i].Page? && Window(current, total, maxVisible)[i + 1].Page?) ==>
      Window(current, total, maxVisible)[i + 1].n == Window(current, total, maxVisible)[i].n + 1
  {
    MiddleShape(current, total, maxVisible);
    MiddleBounds(current, total, maxVisible);
    WindowLayout(current, total, maxVisible);
  }

  /**
   * With an odd window of at least three and more pages than fit, exactly
   * `maxVisible` page buttons are shown.
   */
  lemma WindowCount(current: int, total: int, maxVisible: int)
    requires 3 <= maxVisible < total && maxVisible % 2 == 1
    ensures NumberCount(Window(current, total, maxVisible)) == maxVisible
  {
    MiddleShape(current, total, maxVisible);
    var s, e := StartPage(current, total, maxVisible), EndPage(current, total, maxVisible);
    var lead := if s > 2 then [Ellipsis] else [];
    var trail := if e < total - 1 then [Ellipsis] else [];
    var mid := Range(s, e);
    var p := [Page(1)] + lead;
    var q := p + mid;
    var r := q + trail;
    assert Window(current, total, maxVisible) == r + [Page(total)];
    NumberCountConcat(r, [Page(total)]);
    NumberCountConcat(q, trail);
    NumberCountConcat(p, mid);
    NumberCountConcat([Page(1)], lead);
    assert NumberCount(lead) == 0 && NumberCount(trail) == 0;
    assert NumberCount([Page(1)]) == 1 && NumberCount([Page(total)]) == 1;
    assert 2 * Half(maxVisible) == maxVisible - 1;
    assert |mid| == maxVisible - 2;
    NumberCountRange(s, e);
  }

  /** With a window of at least two, the current page always has its own button. */
  lemma WindowHasCurrent(current: int, total: int, maxVisible: int)
    requires 2 <= maxVisible && 1 < total && 1 <= current <= total
    ensures Page(current) in Window(current, total, maxVisible)
  {
    var w := Window(current, total, maxVisible);
    if total <= maxVisible {
      assert w[current - 1] == Page(current);
    } else if current == 1 {
      assert w[0] == Page(1);
    } else if current == total {
      assert w[|w| - 1] == Page(total);
    } else {
      var s, e := StartPage(current, total, maxVisible), EndPage(current, total, maxVisible);
      var lead := if s > 2 then [Ellipsis] else [];
      var mid := Range(s, e);
      assert s <= current <= e;
      assert mid[current - s] == Page(current);
      assert w == [Page(1)] + lead + mid + (if e < total - 1 then [Ellipsis] else []) + [Page(total)];
      assert w[1 + |lead| + current - s] == Page(current);
    }
  }

  /**
   * With a window of one, a middle page loses its button: for page 3 of 5 the
   * strip is page 1, two ellipses and page 5.
   */
  lemma CurrentHiddenAtOne()
    ensures Window(3, 5, 1) == [Page(1), Ellipsis, Ellipsis, Page(5)]
    ensures Page(3) !in Window(3, 5, 1)
  {
    assert StartPage(3, 5, 1) == 4 && EndPage(3, 5, 1) == 2;
    assert Range(4, 2) == [];
  }

  /**
   * `handlePageClick`: the page to switch to, or None when the click is
   * ignored — the page is the current one, a load is in progress, or the page
   * is outside 1 to `total`.
   */
  function PageClick(page: int, current: int, total: int, loading: bool): (r: Option<int>)
    ensures r.Some? ==> r.value == page && 1 <= r.value <= total && r.value != current
    ensures r.None? ==> page == current || loading || page < 1 || page > total
  {
    if page != current && !loading && 1 <= page <= total then Some(page) else None
  }

  /** Clicking a numbered button of the strip switches exactly when it is not the current page and nothing is loading. */
  lemma ClickVisiblePage(current: int, total: int, maxVisible: int, loading: bool, n: int)
    requires 1 < total && Page(n) in Window(current, total, maxVisible)
    ensures PageClick(n, current, total, loading) == if n != current && !loading then Some(n) else None
  {
    WindowIncreasing(current, total, maxVisible);
    var w := Window(current, total, maxVisible);
    var i :| 0 <= i < |w| && w[i] == Page(n);
    assert 1 <= w[i].n <= total;
  }

  /** "Previous" on the first page and "next" on the last page change nothing. */
  lemma PrevNextAtEdges(total: int, loading: bool)
    ensures PageClick(1 - 1, 1, total, loading).None?
    ensures PageClick(total + 1, total, total, loading).None?
  {
  }

  /**
   * What the pager renders: its buttons, which of them are disabled, and the
   * strip. `pagesDisabled` is the `disabled` of the first, last and page buttons.
   */
  datatype Pager = Pager(
    showFirst: bool, prevDisabled: bool, items: seq<PageItem>, nextDisabled: bool, showLast: bool,
    pagesDisabled: bool)

  /** The whole component: nothing for a single page, else the buttons and the strip. */
  function Render(current: int, total: int, loading: bool, showFirstLast: bool, maxVisible: int): (r: Option<Pager>)
    ensures r.None? <==> total <= 1
    ensures r.Some? ==> r.value.items == Window(current, total, maxVisible)
    ensures r.Some? ==> (r.value.showFirst <==> showFirstLast && current > 1)
    ensures r.Some? ==> (r.value.showLast <==> showFirstLast && current < total)
    ensures r.Some? ==> (r.value.prevDisabled <==> current == 1 || loading)
    ensures r.Some? ==> (r.value.nextDisabled <==> current == total || loading)
    ensures r.Some? ==> (r.value.pagesDisabled <==> loading)
  {
    if total <= 1 then None
    else Some(Pager(showFirstLast && current > 1, current == 1 || loading,
      Window(current, total, maxVisible), current == total || loading, showFirstLast && current < total,
      loading))
  }

  /** Rendering with the default window of seven shows page 1 and the last page whenever there are more than seven. */
  lemma RenderDefault(current: int, total: int, loading: bool)
    requires total > 7
    ensures Render(current, total, loading, true, 7).Some?
    ensures Render(current, total, loading, true, 7).value.items[0] == Page(1)
    ensures NumberCount(Render(current, total, loading, true, 7).value.items) == 7
  {
    WindowEnds(current, total, 7);
    WindowCount(current, total, 7);
  }

  /** `PaginationInfo`: the number of the first item on the page. */
  function StartItem(current: int, perPage: int): int {
    (current - 1) * perPage + 1
  }

  /** `PaginationInfo`: the number of the last item on the page, capped by the total. */
  function EndItem(current: int, perPage: int, totalItems: int): (r: int)
    ensures r <= totalItems && r <= current * perPage
    ensures r == totalItems || r == current * perPage
  {
    Min(current * perPage, totalItems)
  }

  /** A full page shows exactly `perPage` items, and the next page starts right after it. */
  lemma InfoFullPage(current: int, perPage: int, totalItems: int)
    requires current * perPage <= totalItems
    ensures EndItem(current, perPage, totalItems) - StartItem(current, perPage) + 1 == perPage
    ensures StartItem(current + 1, perPage) == EndItem(current, perPage, totalItems) + 1
  {
  }

  /** The last, partial page ends at the total and starts inside the range. */
  lemma InfoLastPage(current: int, perPage: int, totalItems: int)
    requires perPage >= 1 && current >= 1
    requires (current - 1) * perPage < totalItems <= current * perPage
    ensures EndItem(current, perPage, totalItems) == totalItems
    ensures 1 <= StartItem(current, perPage) <= totalItems
  {
  }

  /** An empty list reads "1 to 0": the start is past the end. */
  lemma InfoEmpty(perPage: int)
    requires perPage >= 0
    ensures StartItem(1, perPage) == 1 && EndItem(1, perPage, 0) == 0
  {
  }
}
