/**
  Which page buttons the pagination view of the search results shows
  (src/js/views/paginationView.js): a case split on the current page and the
  number of pages.
 */
module PaginationView {
  import opened Types

  /** A `data-goto` button: the page it leads to and whether it is the "next" (right) one. */
  datatype Button = Button(goto: int, next: bool)

  /** The markup: the buttons in document order and the "Total number of pages" line, or nothing. */
  datatype Pagination = NoPagination | Buttons(buttons: seq<Button>, totalPages: int)

  /** `Math.ceil(count / RES_PER_PAGE)` */
  function NumPages(count: nat): (n: nat)
    ensures n * RES_PER_PAGE >= count
    ensures n > 0 ==> (n - 1) * RES_PER_PAGE < count
  {
    (count + RES_PER_PAGE - 1) / RES_PER_PAGE
  }

  /** `_generateMarkup` for the current page and the number of results. */
  function Markup(page: int, count: nat): Pagination {
    var numPages := NumPages(count);
    if page == 1 && numPages > 1 then Buttons([Button(page + 1, true)], numPages)
    else if page == numPages && numPages > 1 then Buttons([Button(page - 1, false)], numPages)
    else if page < numPages then Buttons([Button(page - 1, false), Button(page + 1, true)], numPages)
    else NoPagination
  }

  /** On page 1 of several, only "next" to page 2. */
  lemma FirstPage(count: nat)
    requires NumPages(count) > 1
    ensures Markup(1, count) == Buttons([Button(2, true)], NumPages(count))
  {
  }

  /** On the last of several pages, only "prev" to the page before. */
  lemma LastPage(count: nat)
    requires NumPages(count) > 1
    ensures Markup(NumPages(count), count) == Buttons([Button(NumPages(count) - 1, false)], NumPages(count))
  {
  }

  /** On a page strictly between the first and the last, "prev" and then "next". */
  lemma MiddlePage(page: int, count: nat)
    requires 1 < page < NumPages(count)
    ensures Markup(page, count) == Buttons([Button(page - 1, false), Button(page + 1, true)], NumPages(count))
  {
  }

  /** With at most one page of results, or a page past the last, there is no markup. */
  lemma NoButtons(page: int, count: nat)
    requires page >= 1
    ensures Markup(page, count) == NoPagination <==> count <= RES_PER_PAGE || page > NumPages(count)
  {
  }

  /** Every button leads to an existing page other than the current one, and the total shown is the page count. */
  lemma TargetsInRange(page: int, count: nat)
    requires page >= 1
    ensures Markup(page, count).Buttons? ==>
              Markup(page, count).totalPages == NumPages(count) > 1 &&
              forall b :: b in Markup(page, count).buttons ==>
                1 <= b.goto <= NumPages(count) && b.goto != page && (b.next <==> b.goto == page + 1)
  {
  }
}
