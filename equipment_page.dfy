/** The equipment list page's filter state and pagination (frontend/app/equipment/page.tsx):
    how a filter change and a page change rewrite the search parameters, and the page
    buttons drawn from the server's pagination. The fetch the new parameters trigger is
    outside the model. */
module EquipmentPage {
  import opened Wrappers
  import opened Text

  /** The search parameters: the page (possibly absent) and the other filter values by name. */
  datatype SearchParams = SearchParams(page: Option<int>, values: map<string, string>)

  const InitialParams := SearchParams(Some(1), map["limit" := "20", "sortBy" := "equipment_number", "sortOrder" := "asc"])

  /** The page `handleFiltersChange` stores: 1 when the new parameters keep the current page
      (a change of some other filter), the new page otherwise. */
  function ResetPage(current: Option<int>, requested: Option<int>): (r: Option<int>)
    ensures requested == current ==> r == Some(1)
    ensures requested != current ==> r == requested
  {
    if requested == current then Some(1) else requested
  }

  /** A changed filter on an unchanged page starts over at page 1, and a change of page
      alone is kept as asked. */
  lemma FilterChangeSpec(filters: SearchParams, newFilters: SearchParams)
    ensures var r := newFilters.(page := ResetPage(filters.page, newFilters.page));
      r.values == newFilters.values &&
      (newFilters.values != filters.values && newFilters.page == filters.page ==> r.page == Some(1)) &&
      (newFilters.page != filters.page ==> r.page == newFilters.page)
  {
  }

  /** The page numbers drawn: `min(5, totalPages)` slots from `max(1, page - 2)` on, without
      the ones past the last page. */
  function Window(page: int, totalPages: int): seq<int> {
    WindowFrom(Max(1, page - 2), Min(5, totalPages), totalPages)
  }

  /** `count` consecutive numbers from `first`, keeping those not past `last`. */
  function WindowFrom(first: int, count: int, last: int): seq<int>
    decreases if count <= 0 then 0 else count
  {
    if count <= 0 then []
    else (if first <= last then [first] else []) + WindowFrom(first + 1, count - 1, last)
  }

  /** The drawn numbers are consecutive from `first`: as many of the `count` slots as lie
      within `last`. */
  lemma {:induction false} WindowFromSpec(first: int, count: int, last: int)
    ensures var w := WindowFrom(first, count, last);
      |w| == Max(0, Min(count, last - first + 1)) &&
      forall i :: 0 <= i < |w| ==> w[i] == first + i
    decreases if count <= 0 then 0 else count
  {
    if count > 0 {
      WindowFromSpec(first + 1, count - 1, last);
    }
  }

  /** The window starts at `max(1, page - 2)`, holds at most `min(5, totalPages)` consecutive
      numbers, none past the last page, and holds the current page when it exists. */
  lemma WindowSpec(page: int, totalPages: int)
    ensures var w := Window(page, totalPages);
      |w| <= Max(0, Min(5, totalPages)) &&
      (forall i :: 0 <= i < |w| ==> w[i] == Max(1, page - 2) + i && 1 <= w[i] <= totalPages) &&
      (1 <= page <= totalPages ==> page in w)
  {
    WindowFromSpec(Max(1, page - 2), Min(5, totalPages), totalPages);
    var w := Window(page, totalPages);
    if 1 <= page <= totalPages {
      var i := page - Max(1, page - 2);
      assert 0 <= i < |w| && w[i] == page;
    }
  }

  /** Near the last page the window is shorter than five buttons: on page 6 of 6 it shows
      only pages 4 to 6. */
  lemma WindowShrinksAtEnd()
    ensures Window(6, 6) == [4, 5, 6]
  {
    WindowFromSpec(4, 5, 6);
  }

  /** Previous is disabled on the first page (and while loading). */
  predicate PreviousDisabled(page: int, loading: bool) {
    page <= 1 || loading
  }

  /** Next is disabled on the last page (and while loading). */
  predicate NextDisabled(page: int, totalPages: int, loading: bool) {
    page >= totalPages || loading
  }

  /** When nothing is loading, the previous and next pages are offered exactly when they
      exist. */
  lemma NavigationSpec(page: int, totalPages: int)
    requires 1 <= page <= totalPages
    ensures !PreviousDisabled(page, false) <==> 1 <= page - 1
    ensures !NextDisabled(page, totalPages, false) <==> page + 1 <= totalPages
  {
  }

  /** The page's `filters` state. */
  class Page {
    var filters: SearchParams

    constructor ()
      ensures filters == InitialParams
    {
      filters := InitialParams;
    }

    /** `handleFiltersChange(newFilters)`. */
    method HandleFiltersChange(newFilters: SearchParams)
      modifies this
      ensures filters == newFilters.(page := ResetPage(old(filters).page, newFilters.page))
    {
      var page := if newFilters.page == filters.page then Some(1) else newFilters.page;
      filters := newFilters.(page := page);
    }

    /** `handlePageChange(page)`: only the page changes. */
    method HandlePageChange(page: int)
      modifies this
      ensures filters.page == Some(page) && filters.values == old(filters).values
    {
      filters := filters.(page := Some(page));
    }
  }
}
