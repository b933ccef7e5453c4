/**
 * The page controls shared by the admin user and rental lists: a window of
 * at most five consecutive page numbers around the current page, and the
 * Previous and Next buttons clamped to the existing pages.
 */
module Pagination {
  import opened Common

  function Min(a: int, b: int): int { if a <= b then a else b }
  function Max(a: int, b: int): int { if a >= b then a else b }

  /** The first number of the window: two before the current page, pulled back so five fit. */
  function WindowStart(totalPages: int, currentPage: int): int
  {
    Max(1, Min(totalPages - 4, currentPage - 2))
  }

  /** The page buttons, `Array.from({length: min(5, T)})` mapped to start + i. */
  function PageWindow(totalPages: int, currentPage: int): (w: seq<int>)
    ensures |w| == Max(0, Min(5, totalPages))
    ensures forall i :: 0 <= i < |w| ==> w[i] == WindowStart(totalPages, currentPage) + i
  {
    seq(Max(0, Min(5, totalPages)), i => WindowStart(totalPages, currentPage) + i)
  }

  /**
   * On a valid page, the window holds only existing pages, holds the
   * current one, and is as wide as it can be.
   */
  lemma {:induction false} WindowCoversCurrent(totalPages: int, currentPage: int)
    requires 1 <= currentPage <= totalPages
    ensures forall p :: p in PageWindow(totalPages, currentPage) ==> 1 <= p <= totalPages
    ensures currentPage in PageWindow(totalPages, currentPage)
    ensures |PageWindow(totalPages, currentPage)| == Min(5, totalPages)
  {
    var w := PageWindow(totalPages, currentPage);
    var start := WindowStart(totalPages, currentPage);
    assert start <= currentPage < start + |w|;
    assert w[currentPage - start] == currentPage;
    forall p | p in w
      ensures 1 <= p <= totalPages
    {
      var i :| 0 <= i < |w| && w[i] == p;
    }
  }

  /** The Previous button: one page back, never below the first. */
  function Previous(currentPage: int): (p: int)
    ensures p >= 1
    ensures currentPage > 1 ==> p == currentPage - 1
  {
    Max(1, currentPage - 1)
  }

  /** The Next button: one page on, never beyond the last. */
  function Next(currentPage: int, totalPages: int): (p: int)
    ensures p <= totalPages
    ensures currentPage < totalPages ==> p == currentPage + 1
  {
    Min(totalPages, currentPage + 1)
  }

  /** From a valid page, both buttons lead to a valid page. */
  lemma PreviousNextStayInRange(currentPage: int, totalPages: int)
    requires 1 <= currentPage <= totalPages
    ensures 1 <= Previous(currentPage) <= totalPages
    ensures 1 <= Next(currentPage, totalPages) <= totalPages
  {
  }

  /** `pagination.totalPages || 1`: a missing or zero count shows one page. */
  function TotalPagesOr1(reported: Option<int>): (t: int)
    ensures reported.None? || reported.value == 0 ==> t == 1
    ensures reported.Some? && reported.value != 0 ==> t == reported.value
  {
    if reported.Some? && reported.value != 0 then reported.value else 1
  }
}
