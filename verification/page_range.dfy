/**
 * The page picker's labels. With at most seven pages every page is listed.
 * With more, the picker lists page 1, a window of three consecutive interior
 * pages around the current one, and the last page, with "..." standing in
 * for the pages skipped on either side of the window.
 */
module PageRange {
  import opened Paging

  /** One label of the picker: a page number or the "..." placeholder. */
  datatype RangeEntry = Num(page: nat) | Ellipsis

  /** Up to this many pages, the picker lists them all. */
  const MaxListedPages: nat := 7

  /** Num(a), Num(a + 1), ..., Num(b); empty when a > b. */
  function Nums(a: nat, b: int): (r: seq<RangeEntry>)
    ensures |r| == Max(0, b - a + 1)
    ensures forall k :: 0 <= k < |r| ==> r[k] == Num(a + k)
    decreases b - a
  {
    if a > b then [] else Nums(a, b - 1) + [Num(b)]
  }

  /**
   * The first page of the three-page window: the page before the current one,
   * moved right to page 2 at the start and left to totalPages - 3 at the end,
   * so that the window always lies between page 1 and the last page.
   */
  function WindowStart(totalPages: nat, currentPage: int): (r: int)
    ensures totalPages > MaxListedPages ==> 2 <= r && r + 2 < totalPages
    ensures totalPages > MaxListedPages && 1 < currentPage < totalPages ==> r <= currentPage <= r + 2
    ensures totalPages > MaxListedPages ==>
              && (currentPage <= 3 ==> r == 2)
              && (currentPage >= totalPages - 2 ==> r == totalPages - 3)
              && (3 < currentPage < totalPages - 2 ==> r == currentPage - 1)
  {
    Min(Max(2, currentPage - 1), totalPages - 3)
  }

  /** The picker's labels, as a declarative reference for the generator below. */
  function PaginationRange(totalPages: nat, currentPage: int): (r: seq<RangeEntry>)
    ensures r == [] <==> totalPages == 0
    ensures totalPages > 0 ==> r[0] == Num(1) && r[|r| - 1] == Num(totalPages)
  {
    if totalPages <= MaxListedPages then Nums(1, totalPages)
    else
      var ws := WindowStart(totalPages, currentPage);
      [Num(1)]
      + (if ws > 2 then [Ellipsis] else [])
      + [Num(ws), Num(ws + 1), Num(ws + 2)]
      + (if ws + 2 < totalPages - 1 then [Ellipsis] else [])
      + [Num(totalPages)]
  }

  /**
   * The window `generatePaginationRange` computes (start and end, after its two
   * corrections for the first and last pages) is the three pages from
   * `WindowStart`, and its tests for the two "..." marks agree with the window.
   */
  lemma SourceWindowIsWindow(totalPages: nat, currentPage: int, start: int, end: int)
    requires totalPages > MaxListedPages
    requires start == if currentPage >= totalPages - 2 then totalPages - 3 else Max(2, currentPage - 1)
    requires end == if currentPage <= 3 then 4 else Min(totalPages - 1, currentPage + 1)
    ensures start == WindowStart(totalPages, currentPage) && end == start + 2
    ensures currentPage > 3 <==> start > 2
    ensures currentPage < totalPages - 2 <==> end < totalPages - 1
  {
  }

  /** `generatePaginationRange`: builds the labels by pushing them one at a time. */
  method GeneratePaginationRange(totalPages: nat, currentPage: int) returns (range: seq<RangeEntry>)
    ensures range == PaginationRange(totalPages, currentPage)
  {
    range := [];
    var showEllipsis := totalPages > MaxListedPages;
    if !showEllipsis {
      var i := 1;
      while i <= totalPages
        invariant 1 <= i <= totalPages + 1
        invariant range == Nums(1, i - 1)
      {
        range := range + [Num(i)];
        i := i + 1;
      }
    } else {
      ghost var lead: seq<RangeEntry> := if currentPage > 3 then [Ellipsis] else [];
      range := range + [Num(1)];
      if currentPage > 3 {
        range := range + [Ellipsis];
      }
      assert range == [Num(1)] + lead;
      var start := Max(2, currentPage - 1);
      var end := Min(totalPages - 1, currentPage + 1);
      if currentPage <= 3 {
        end := 4;
      }
      if currentPage >= totalPages - 2 {
        start := totalPages - 3;
      }
      SourceWindowIsWindow(totalPages, currentPage, start, end);
      var i := start;
      while i <= end
        invariant start <= i <= end + 1
        invariant range == [Num(1)] + lead + Nums(start, i - 1)
      {
        range := range + [Num(i)];
        i := i + 1;
      }
      ghost var trail: seq<RangeEntry> := if currentPage < totalPages - 2 then [Ellipsis] else [];
      if currentPage < totalPages - 2 {
        range := range + [Ellipsis];
      }
      assert range == [Num(1)] + lead + Nums(start, end) + trail;
      if totalPages > 1 {
        range := range + [Num(totalPages)];
      }
      LargeRangeLayout(totalPages, currentPage);
    }
  }

  /** The declarative range for more than seven pages, in the terms the generator builds it. */
  lemma LargeRangeLayout(totalPages: nat, currentPage: int)
    requires totalPages > MaxListedPages
    ensures var ws := WindowStart(totalPages, currentPage);
            PaginationRange(totalPages, currentPage)
            == [Num(1)] + (if currentPage > 3 then [Ellipsis] else []) + Nums(ws, ws + 2)
               + (if currentPage < totalPages - 2 then [Ellipsis] else []) + [Num(totalPages)]
  {
    var ws := WindowStart(totalPages, currentPage);
    assert Nums(ws, ws + 2) == [Num(ws), Num(ws + 1), Num(ws + 2)];
  }

  /** With at most seven pages the picker is exactly 1, 2, ..., totalPages (nothing for no pages). */
  lemma SmallRangeListsEveryPage(totalPages: nat, currentPage: int)
    requires totalPages <= MaxListedPages
    ensures |PaginationRange(totalPages, currentPage)| == totalPages
    ensures forall k :: 0 <= k < totalPages ==> PaginationRange(totalPages, currentPage)[k] == Num(k + 1)
  {
  }

  /** However many pages there are and whatever the current page, the picker has at most seven labels. */
  lemma RangeAtMostSeven(totalPages: nat, currentPage: int)
    ensures |PaginationRange(totalPages, currentPage)| <= MaxListedPages
  {
  }

  /**
   * With more than seven pages, the picker starts at page 1 and ends at the
   * last page; a "..." can stand only second or second to last, the leading
   * one exactly when the current page is past 3 and the trailing one exactly
   * when it is before totalPages - 2; everything else is a page number, so
   * exactly three interior pages are listed.
   */
  lemma LargeRangeShape(totalPages: nat, currentPage: int)
    requires totalPages > MaxListedPages
    requires 1 <= currentPage <= totalPages
    ensures var r := PaginationRange(totalPages, currentPage);
            && |r| == 5 + (if currentPage > 3 then 1 else 0) + (if currentPage < totalPages - 2 then 1 else 0)
            && r[0] == Num(1) && r[|r| - 1] == Num(totalPages)
            && (r[1] == Ellipsis <==> currentPage > 3)
            && (r[|r| - 2] == Ellipsis <==> currentPage < totalPages - 2)
            && forall i :: 0 <= i < |r| && r[i] == Ellipsis ==> i == 1 || i == |r| - 2
  {
  }

  /**
   * The page numbers of `r`, read left to right, rise strictly and lie in
   * 1..totalPages; neighbouring numbers are consecutive pages, and a "..."
   * always sits between two numbers with at least one page skipped between
   * them: no page is left out silently.
   */
  ghost predicate NumbersWellPlaced(r: seq<RangeEntry>, totalPages: nat) {
    && (forall i :: 0 <= i < |r| && r[i].Num? ==> 1 <= r[i].page <= totalPages)
    && (forall i, j :: 0 <= i < j < |r| && r[i].Num? && r[j].Num? ==> r[i].page < r[j].page)
    && (forall i, j :: 0 <= i && i + 1 == j < |r| && r[i].Num? && r[j].Num? ==> r[j].page == r[i].page + 1)
    && (forall i :: 0 <= i < |r| && r[i] == Ellipsis ==> 0 < i < |r| - 1)
    && (forall h, i, j :: 0 <= h && h + 1 == i && i + 1 == j < |r| && r[i] == Ellipsis ==>
          r[h].Num? && r[j].Num? && r[h].page + 1 < r[j].page)
  }

  lemma SmallRangeWellPlaced(totalPages: nat, currentPage: int)
    requires totalPages <= MaxListedPages
    ensures NumbersWellPlaced(PaginationRange(totalPages, currentPage), totalPages)
  {
  }

  // The shapes a picker for more than seven pages can take: with a "..."
  // on both sides of the window, or on one side only.

  lemma BothGapsWellPlaced(t: nat, ws: nat)
    requires 2 < ws && ws + 2 < t - 1
    ensures NumbersWellPlaced([Num(1), Ellipsis, Num(ws), Num(ws + 1), Num(ws + 2), Ellipsis, Num(t)], t)
  {
  }

  lemma LeadingGapWellPlaced(t: nat, ws: nat)
    requires 2 < ws && ws + 2 == t - 1
    ensures NumbersWellPlaced([Num(1), Ellipsis, Num(ws), Num(ws + 1), Num(ws + 2), Num(t)], t)
  {
  }

  lemma TrailingGapWellPlaced(t: nat, ws: nat)
    requires 2 == ws && ws + 2 < t - 1
    ensures NumbersWellPlaced([Num(1), Num(ws), Num(ws + 1), Num(ws + 2), Ellipsis, Num(t)], t)
  {
  }

  lemma LargeRangeWellPlaced(totalPages: nat, currentPage: int)
    requires totalPages > MaxListedPages
    ensures NumbersWellPlaced(PaginationRange(totalPages, currentPage), totalPages)
  {
    var t := totalPages;
    var ws := WindowStart(t, currentPage);
    var r := PaginationRange(t, currentPage);
    if ws > 2 && ws + 2 < t - 1 {
      assert r == [Num(1), Ellipsis, Num(ws), Num(ws + 1), Num(ws + 2), Ellipsis, Num(t)];
      BothGapsWellPlaced(t, ws);
    } else if ws > 2 {
      assert r == [Num(1), Ellipsis, Num(ws), Num(ws + 1), Num(ws + 2), Num(t)];
      LeadingGapWellPlaced(t, ws);
    } else {
      assert r == [Num(1), Num(ws), Num(ws + 1), Num(ws + 2), Ellipsis, Num(t)];
      TrailingGapWellPlaced(t, ws);
    }
  }

  /**
   * For any current page in 1..totalPages, the picker's page numbers are well
   * placed (see `NumbersWellPlaced`) and include the current page, so the
   * current page can always be seen and every label is a page the view accepts.
   */
  lemma RangeNumbersValid(totalPages: nat, currentPage: int)
    requires 1 <= currentPage <= totalPages
    ensures NumbersWellPlaced(PaginationRange(totalPages, currentPage), totalPages)
    ensures Num(currentPage) in PaginationRange(totalPages, currentPage)
  {
    var r := PaginationRange(totalPages, currentPage);
    if totalPages <= MaxListedPages {
      SmallRangeWellPlaced(totalPages, currentPage);
      assert r[currentPage - 1] == Num(currentPage);
    } else {
      LargeRangeWellPlaced(totalPages, currentPage);
      var ws := WindowStart(totalPages, currentPage);
      if currentPage == 1 {
        assert r[0] == Num(1);
      } else if currentPage == totalPages {
        assert r[|r| - 1] == Num(totalPages);
      } else {
        var lead: seq<RangeEntry> := if ws > 2 then [Ellipsis] else [];
        assert r[1 + |lead| + (currentPage - ws)] == Num(currentPage);
      }
    }
  }

  /** Ten pages, on page 1: 1, 2, 3, 4, ..., 10. */
  lemma TenPagesOnFirstExample()
    ensures PaginationRange(10, 1) == [Num(1), Num(2), Num(3), Num(4), Ellipsis, Num(10)]
  {
  }
}
