/** `Pagination`: one button per page, the current one highlighted. */
module Pagination {

  /** `Math.ceil(totalCount / pageSize)`; a page size of 0 is never passed. */
  function TotalPages(totalCount: nat, pageSize: nat): (n: nat)
    requires pageSize > 0
    ensures n * pageSize >= totalCount
    ensures n > 0 ==> (n - 1) * pageSize < totalCount
  {
    var n := (totalCount + pageSize - 1) / pageSize;
    assert n * pageSize + (totalCount + pageSize - 1) % pageSize == totalCount + pageSize - 1;
    n
  }

  /** A button: its number, the page it reports to `onPageChange`, and whether it is
    * drawn highlighted. */
  datatype PageButton = PageButton(number: int, reports: int, highlighted: bool)

  /** `Array.from({ length: totalPages }, (_, i) => ...)`. */
  function Buttons(currentPage: int, totalCount: nat, pageSize: nat): (bs: seq<PageButton>)
    requires pageSize > 0
    ensures |bs| == TotalPages(totalCount, pageSize)
    ensures forall i :: 0 <= i < |bs| ==> bs[i].number == i + 1 && bs[i].reports == i + 1
    ensures forall i :: 0 <= i < |bs| ==> (bs[i].highlighted <==> currentPage == i + 1)
  {
    seq(TotalPages(totalCount, pageSize), i => PageButton(i + 1, i + 1, currentPage == i + 1))
  }

  /** No articles, no buttons. */
  lemma NoButtonsWhenEmpty(currentPage: int, pageSize: nat)
    requires pageSize > 0
    ensures Buttons(currentPage, 0, pageSize) == []
  {
  }

  /** The buttons are ordered by page, and the last one is the last page that holds
    * an article. */
  lemma ButtonsCoverAllArticles(currentPage: int, totalCount: nat, pageSize: nat)
    requires pageSize > 0
    ensures var bs := Buttons(currentPage, totalCount, pageSize);
      (forall i, j :: 0 <= i < j < |bs| ==> bs[i].number < bs[j].number)
      && (totalCount > 0 <==> |bs| > 0)
      && (|bs| > 0 ==> (bs[|bs| - 1].number - 1) * pageSize < totalCount <= bs[|bs| - 1].number * pageSize)
  {
  }

  /** At most one button is highlighted, and exactly one when the current page exists. */
  lemma OneHighlighted(currentPage: int, totalCount: nat, pageSize: nat)
    requires pageSize > 0
    ensures var bs := Buttons(currentPage, totalCount, pageSize);
      (forall i, j :: 0 <= i < |bs| && 0 <= j < |bs| && bs[i].highlighted && bs[j].highlighted ==> i == j)
      && ((exists i :: 0 <= i < |bs| && bs[i].highlighted) <==> 1 <= currentPage <= |bs|)
  {
    var bs := Buttons(currentPage, totalCount, pageSize);
    if 1 <= currentPage <= |bs| {
      assert bs[currentPage - 1].highlighted;
    }
  }
}
