/** Paged lists (components/Pagination.tsx, and the page state of
  * components/FleetManagement.tsx and components/RouteManagement.tsx): the
  * number of pages, the clamp that pulls a page back when the list shrinks,
  * the slice shown on a page, and the previous/next buttons. */
module Paging {

  /** The fewest pages holding `count` items. */
  function TotalPages(count: nat, perPage: nat): (r: nat)
    requires perPage > 0
    ensures count <= r * perPage
    ensures r > 0 ==> (r - 1) * perPage < count
    ensures r == 0 <==> count == 0
  {
    (count + perPage - 1) / perPage
  }

  /** The effect that runs whenever the page count changes: a page past the
    * last one falls back to the last one, unless there are no pages. */
  function ClampPage(page: int, totalPages: int): (r: int)
    ensures totalPages > 0 && page > totalPages ==> r == totalPages
    ensures page <= totalPages || totalPages <= 0 ==> r == page
  {
    if page > totalPages && totalPages > 0 then totalPages else page
  }

  /** Running the effect again changes nothing, and a page that starts at 1
    * or more stays there. */
  lemma ClampPageSettles(page: int, totalPages: int)
    ensures ClampPage(ClampPage(page, totalPages), totalPages) == ClampPage(page, totalPages)
    ensures page >= 1 ==> ClampPage(page, totalPages) >= 1
    ensures page >= 1 && totalPages > 0 ==> 1 <= ClampPage(page, totalPages) <= totalPages
  {
  }

  /** The items of a page: `perPage` items from the page's offset on, cut
    * back at the end of the list. */
  function PageItems<T>(s: seq<T>, page: int, perPage: nat): (r: seq<T>)
    requires page >= 1 && perPage > 0
    ensures |r| <= perPage
    ensures (page - 1) * perPage < |s| ==> |r| > 0
    ensures |r| > 0 ==> 0 <= (page - 1) * perPage && (page - 1) * perPage + |r| <= |s|
    ensures forall k :: 0 <= k < |r| ==> r[k] == s[(page - 1) * perPage + k]
  {
    var start := (page - 1) * perPage;
    var end := page * perPage;
    if start >= |s| then []
    else if end >= |s| then s[start..]
    else s[start..end]
  }

  /** The pages partition the list: item `i` is shown on page i / perPage + 1
    * at position i % perPage, and that page is one of the pages counted. */
  lemma PagesCoverList<T>(s: seq<T>, perPage: nat, i: nat)
    requires perPage > 0 && i < |s|
    ensures var page := i / perPage + 1;
            1 <= page <= TotalPages(|s|, perPage) &&
            i % perPage < |PageItems(s, page, perPage)| &&
            PageItems(s, page, perPage)[i % perPage] == s[i]
  {
    var page := i / perPage + 1;
    var q, k := i / perPage, i % perPage;
    assert i == q * perPage + k;
    assert (page - 1) * perPage + k == i;
    var t := TotalPages(|s|, perPage);
    MulCancel(t, q, perPage);
  }

  /** A product with a positive factor is larger only if the other factor is. */
  lemma MulCancel(a: int, b: int, c: int)
    requires c > 0 && a * c > b * c
    ensures a > b
  {
    assert (a - b) * c == a * c - b * c;
  }

  // ---------------------------------------------------------------------
  // The previous / next control

  /** The control is only shown when there is more than one page. */
  predicate ControlShown(totalPages: int) { totalPages > 1 }

  function PreviousPage(page: int): (r: int)
    ensures r >= 1
    ensures page > 1 ==> r == page - 1
    ensures page <= 1 ==> r == 1
  {
    if page - 1 >= 1 then page - 1 else 1
  }

  function NextPage(page: int, totalPages: int): (r: int)
    ensures r <= totalPages
    ensures page < totalPages ==> r == page + 1
    ensures page >= totalPages ==> r == totalPages
  {
    if page + 1 <= totalPages then page + 1 else totalPages
  }

  predicate PreviousDisabled(page: int) { page == 1 }

  predicate NextDisabled(page: int, totalPages: int) { page == totalPages }

  /** From any page in 1..totalPages both buttons lead to a page in
    * 1..totalPages, and an enabled button moves exactly one page. */
  lemma NavigationStaysInRange(page: int, totalPages: int)
    requires 1 <= page <= totalPages
    ensures 1 <= PreviousPage(page) <= totalPages && 1 <= NextPage(page, totalPages) <= totalPages
    ensures !PreviousDisabled(page) ==> PreviousPage(page) == page - 1
    ensures !NextDisabled(page, totalPages) ==> NextPage(page, totalPages) == page + 1
    ensures PreviousDisabled(page) ==> PreviousPage(page) == page
    ensures NextDisabled(page, totalPages) ==> NextPage(page, totalPages) == page
  {
  }
}
