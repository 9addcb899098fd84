/**
 * components/Pagination.tsx: the page-number bar. Nothing is rendered for
 * one page or fewer; up to seven pages are listed in full; beyond that the
 * bar shows the first and last page, a window around the current page, and
 * an ellipsis for each run of hidden pages.
 */
module Pagination {
  import opened Js

  /** An entry of the bar: a page number or the '...' marker. */
  datatype PageItem = Page(n: int) | Ellipsis

  /** The list `getPageNumbers` returns, case by case. */
  function PageNumbers(currentPage: int, totalPages: int): (r: seq<PageItem>)
    ensures |r| <= 7
    ensures totalPages >= 1 ==> r != [] && r[0] == Page(1) && r[|r| - 1] == Page(totalPages)
  {
    if totalPages <= 7 then
      seq(if totalPages < 0 then 0 else totalPages, i => Page(i + 1))
    else if currentPage <= 3 then
      [Page(1), Page(2), Page(3), Page(4), Ellipsis, Page(totalPages)]
    else if currentPage >= totalPages - 2 then
      [Page(1), Ellipsis, Page(totalPages - 3), Page(totalPages - 2), Page(totalPages - 1), Page(totalPages)]
    else
      [Page(1), Ellipsis, Page(currentPage - 1), Page(currentPage), Page(currentPage + 1), Ellipsis, Page(totalPages)]
  }

  /** `getPageNumbers`: fills `pages` with a loop and pushes. */
  method GetPageNumbers(currentPage: int, totalPages: int) returns (pages: seq<PageItem>)
    ensures totalPages <= 7 ==> |pages| == (if totalPages < 0 then 0 else totalPages)
    ensures totalPages <= 7 ==> forall i :: 0 <= i < |pages| ==> pages[i] == Page(i + 1)
    ensures pages == PageNumbers(currentPage, totalPages)
  {
    pages := [];
    var showEllipsis := totalPages > 7;
    if !showEllipsis {
      var i := 1;
      while i <= totalPages
        invariant 1 <= i && (i == 1 || i <= totalPages + 1)
        invariant |pages| == i - 1
        invariant forall j :: 0 <= j < |pages| ==> pages[j] == Page(j + 1)
      {
        pages := pages + [Page(i)];
        i := i + 1;
      }
    } else {
      pages := pages + [Page(1)];
      if currentPage <= 3 {
        pages := pages + [Page(2), Page(3), Page(4), Ellipsis, Page(totalPages)];
      } else if currentPage >= totalPages - 2 {
        pages := pages + [Ellipsis, Page(totalPages - 3), Page(totalPages - 2), Page(totalPages - 1), Page(totalPages)];
      } else {
        pages := pages + [Ellipsis, Page(currentPage - 1), Page(currentPage), Page(currentPage + 1), Ellipsis, Page(totalPages)];
      }
    }
  }

  /** Page numbers appear in strictly increasing order, all within 1..totalPages. */
  predicate Ascending(pages: seq<PageItem>, totalPages: int) {
    && (forall i :: 0 <= i < |pages| && pages[i].Page? ==> 1 <= pages[i].n <= totalPages)
    && (forall i, j :: 0 <= i < j < |pages| && pages[i].Page? && pages[j].Page? ==> pages[i].n < pages[j].n)
  }

  /**
   * Each '...' sits between two page numbers and hides at least one page;
   * two adjacent page numbers are consecutive, so no page is skipped silently.
   */
  predicate GapsMarked(pages: seq<PageItem>) {
    forall i :: 0 <= i < |pages| ==>
      && (pages[i].Ellipsis? ==>
            0 < i < |pages| - 1 && pages[i - 1].Page? && pages[i + 1].Page? && pages[i + 1].n > pages[i - 1].n + 1)
      && (pages[i].Page? && i + 1 < |pages| && pages[i + 1].Page? ==> pages[i + 1].n == pages[i].n + 1)
  }

  predicate Lists(pages: seq<PageItem>, n: int) {
    exists i :: 0 <= i < |pages| && pages[i] == Page(n)
  }

  /**
   * The bar's shape: it starts at page 1 and ends at the last page, is
   * ascending, marks every gap, has at most seven entries, and lists the
   * current page exactly when it is a real page.
   */
  predicate WellShaped(pages: seq<PageItem>, currentPage: int, totalPages: int) {
    && 2 <= |pages| <= 7
    && pages[0] == Page(1) && pages[|pages| - 1] == Page(totalPages)
    && Ascending(pages, totalPages)
    && GapsMarked(pages)
    && (Lists(pages, currentPage) <==> 1 <= currentPage <= totalPages)
  }

  /** Whenever the bar is shown (more than one page) it is well shaped. */
  lemma PageNumbersShape(currentPage: int, totalPages: int)
    requires totalPages > 1
    ensures WellShaped(PageNumbers(currentPage, totalPages), currentPage, totalPages)
  {
    if totalPages <= 7 {
      FullListShape(currentPage, totalPages);
    } else if currentPage <= 3 {
      LeadingWindowShape(currentPage, totalPages);
    } else if currentPage >= totalPages - 2 {
      TrailingWindowShape(currentPage, totalPages);
    } else {
      MiddleWindowShape(currentPage, totalPages);
    }
  }

  /**
   * The link marked active (`pageNum === currentPage`) is unique, and there
   * is one exactly when the current page is a real page.
   */
  lemma ActivePageUnique(currentPage: int, totalPages: int)
    requires totalPages > 1
    ensures var pages := PageNumbers(currentPage, totalPages);
            && (forall i, j :: 0 <= i < j < |pages| && pages[i] == Page(currentPage) ==> pages[j] != Page(currentPage))
            && (Lists(pages, currentPage) <==> 1 <= currentPage <= totalPages)
  {
    PageNumbersShape(currentPage, totalPages);
  }

  /** A page number that is listed lies within 1..totalPages. */
  lemma ListedInRange(pages: seq<PageItem>, n: int, totalPages: int)
    requires Ascending(pages, totalPages)
    ensures Lists(pages, n) ==> 1 <= n <= totalPages
  {
    if Lists(pages, n) {
      var i :| 0 <= i < |pages| && pages[i] == Page(n);
    }
  }

  lemma FullListShape(currentPage: int, totalPages: int)
    requires 1 < totalPages <= 7
    ensures WellShaped(PageNumbers(currentPage, totalPages), currentPage, totalPages)
  {
    var pages := PageNumbers(currentPage, totalPages);
    assert forall i :: 0 <= i < |pages| ==> pages[i] == Page(i + 1);
    assert Ascending(pages, totalPages);
    ListedInRange(pages, currentPage, totalPages);
    if 1 <= currentPage <= totalPages {
      assert pages[currentPage - 1] == Page(currentPage);
    }
  }

  lemma LeadingWindowShape(currentPage: int, totalPages: int)
    requires totalPages > 7 && currentPage <= 3
    ensures WellShaped(PageNumbers(currentPage, totalPages), currentPage, totalPages)
  {
    var pages := PageNumbers(currentPage, totalPages);
    LeadingList(totalPages);
    ListedInRange(pages, currentPage, totalPages);
    if 1 <= currentPage {
      assert pages[currentPage - 1] == Page(currentPage);
    }
  }

  lemma LeadingList(t: int)
    requires t > 7
    ensures var pages := [Page(1), Page(2), Page(3), Page(4), Ellipsis, Page(t)];
            Ascending(pages, t) && GapsMarked(pages)
  {
  }

  lemma TrailingWindowShape(currentPage: int, totalPages: int)
    requires totalPages > 7 && 3 < currentPage && currentPage >= totalPages - 2
    ensures WellShaped(PageNumbers(currentPage, totalPages), currentPage, totalPages)
  {
    var pages := PageNumbers(currentPage, totalPages);
    TrailingList(totalPages);
    ListedInRange(pages, currentPage, totalPages);
    if currentPage <= totalPages {
      assert pages[currentPage - totalPages + 5] == Page(currentPage);
    }
  }

  lemma TrailingList(t: int)
    requires t > 7
    ensures var pages := [Page(1), Ellipsis, Page(t - 3), Page(t - 2), Page(t - 1), Page(t)];
            Ascending(pages, t) && GapsMarked(pages)
  {
  }

  lemma MiddleWindowShape(currentPage: int, totalPages: int)
    requires totalPages > 7 && 3 < currentPage < totalPages - 2
    ensures WellShaped(PageNumbers(currentPage, totalPages), currentPage, totalPages)
  {
    var pages := PageNumbers(currentPage, totalPages);
    MiddleList(currentPage, totalPages);
    assert pages[3] == Page(currentPage);
  }

  lemma MiddleList(c: int, t: int)
    requires t > 7 && 3 < c < t - 2
    ensures var pages := [Page(1), Ellipsis, Page(c - 1), Page(c), Page(c + 1), Ellipsis, Page(t)];
            Ascending(pages, t) && GapsMarked(pages)
  {
  }

  /** The whole bar: previous link, page entries, next link. A link is `None` when disabled ('#'). */
  datatype Bar = Bar(previous: Option<int>, pages: seq<PageItem>, next: Option<int>)

  /** What `Pagination` renders: nothing for one page or fewer. */
  function Render(currentPage: int, totalPages: int): (r: Option<Bar>)
    ensures r.None? <==> totalPages <= 1
    ensures r.Some? ==> WellShaped(r.value.pages, currentPage, totalPages)
  {
    if totalPages <= 1 then None
    else
      PageNumbersShape(currentPage, totalPages);
      Some(Bar(if currentPage > 1 then Some(currentPage - 1) else None,
               PageNumbers(currentPage, totalPages),
               if currentPage < totalPages then Some(currentPage + 1) else None))
  }

  /**
   * Previous is enabled exactly when currentPage > 1 and Next exactly when
   * currentPage < totalPages; from a real page both lead to real pages.
   */
  lemma RenderNavigation(currentPage: int, totalPages: int)
    ensures Render(currentPage, totalPages).None? <==> totalPages <= 1
    ensures Render(currentPage, totalPages).Some? ==>
              var bar := Render(currentPage, totalPages).value;
              && (bar.previous.Some? <==> currentPage > 1)
              && (bar.next.Some? <==> currentPage < totalPages)
              && (1 <= currentPage <= totalPages ==>
                    && (bar.previous.Some? ==> 1 <= bar.previous.value < currentPage)
                    && (bar.next.Some? ==> currentPage < bar.next.value <= totalPages))
  {
  }
}
