/** The client-side pagination of the error-code list page (frontend/app/error-codes/page.tsx):
    the loaded codes are cut into pages of twelve, one page is shown, and a window of at most
    five page buttons lets the user move between pages. The fetches are outside the model;
    their outcomes are parameters of the methods that receive them. */
module ErrorCodesPage {
  import opened Wrappers
  import opened Text
  import ErrorCodeModel

  const ItemsPerPage: nat := 12

  /** `Math.ceil(n / ITEMS_PER_PAGE)`: the fewest pages of twelve that hold `n` items. */
  function TotalPages(n: nat): (r: nat)
    ensures r * ItemsPerPage >= n
    ensures r > 0 ==> (r - 1) * ItemsPerPage < n
    ensures r == 0 <==> n == 0
  {
    (n + ItemsPerPage - 1) / ItemsPerPage
  }

  /** `allErrorCodes.slice(startIndex, endIndex)` for page `page`; the page is never below 1. */
  function PageSlice<T>(all: seq<T>, page: int): seq<T>
    requires page >= 1
  {
    var start := (page - 1) * ItemsPerPage;
    all[Min(start, |all|)..Min(start + ItemsPerPage, |all|)]
  }

  /** Every page before the last holds twelve items, the last holds one to twelve, a page past
      the last is empty, and a page lists the items from its start index on, in order. */
  lemma PageSliceSpec<T>(all: seq<T>, page: int)
    requires page >= 1
    ensures var s := PageSlice(all, page); var t := TotalPages(|all|);
      (page < t ==> |s| == ItemsPerPage) &&
      (page == t ==> 1 <= |s| <= ItemsPerPage) &&
      (page > t ==> s == []) &&
      forall i :: 0 <= i < |s| ==> s[i] == all[(page - 1) * ItemsPerPage + i]
  {
    var t := TotalPages(|all|);
    if page < t {
      assert page * ItemsPerPage <= (t - 1) * ItemsPerPage;
    } else if page > t {
      assert (page - 1) * ItemsPerPage >= t * ItemsPerPage;
    }
  }

  /** The list cut into consecutive pages of twelve. */
  function Pages<T>(all: seq<T>): seq<seq<T>>
    decreases |all|
  {
    if all == [] then []
    else if |all| <= ItemsPerPage then [all]
    else [all[..ItemsPerPage]] + Pages(all[ItemsPerPage..])
  }

  function Flatten<T>(ps: seq<seq<T>>): seq<T> {
    if ps == [] then [] else ps[0] + Flatten(ps[1..])
  }

  /** The pages the page shows one at a time partition the list: there are `TotalPages` of
      them, page `p` is `PageSlice(all, p)`, and together they are the whole list in order. */
  lemma {:induction false} PagesPartition<T>(all: seq<T>)
    ensures |Pages(all)| == TotalPages(|all|)
    ensures Flatten(Pages(all)) == all
    ensures forall p :: 1 <= p <= |Pages(all)| ==> Pages(all)[p - 1] == PageSlice(all, p)
  {
    if all == [] {
    } else if |all| <= ItemsPerPage {
      assert PageSlice(all, 1) == all;
    } else {
      var rest := all[ItemsPerPage..];
      PagesPartition(rest);
      assert all[..ItemsPerPage] + rest == all;
      assert TotalPages(|all|) == TotalPages(|rest|) + 1;
      forall p | 1 <= p <= |Pages(all)|
        ensures Pages(all)[p - 1] == PageSlice(all, p)
      {
        if p == 1 {
          assert PageSlice(all, 1) == all[..ItemsPerPage];
        } else {
          assert Pages(all)[p - 1] == Pages(rest)[p - 2];
          PageShift(all, p);
        }
      }
    }
  }

  /** Page `p` of a list is page `p - 1` of the list without its first twelve items. */
  lemma PageShift<T>(all: seq<T>, p: int)
    requires |all| > ItemsPerPage && p >= 2
    ensures PageSlice(all, p) == PageSlice(all[ItemsPerPage..], p - 1)
  {
    var rest := all[ItemsPerPage..];
    var start := (p - 1) * ItemsPerPage;
    assert start == (p - 2) * ItemsPerPage + ItemsPerPage;
    var s1 := PageSlice(all, p);
    var s2 := PageSlice(rest, p - 1);
    assert |s1| == |s2|;
    forall i | 0 <= i < |s1| ensures s1[i] == s2[i] {
      assert s1[i] == all[start + i];
      assert s2[i] == rest[(p - 2) * ItemsPerPage + i];
    }
  }

  /** The page number on button `i` of the window: the first five pages while the current
      page is among the first three, the last five near the end, and otherwise the five
      pages centred on the current one. */
  function WindowPage(current: int, total: nat, i: int): int {
    if total <= 5 then i + 1
    else if current <= 3 then i + 1
    else if current >= total - 2 then total - 4 + i
    else current - 2 + i
  }

  /** The page numbers of the pagination buttons, `Math.min(5, totalPages)` of them. */
  function Window(current: int, total: nat): seq<int> {
    seq(Min(5, total), i => WindowPage(current, total, i))
  }

  /** The window holds `min(5, total)` consecutive page numbers, all between 1 and `total`,
      and it holds the current page whenever that page exists. */
  lemma WindowSpec(current: int, total: nat)
    ensures var w := Window(current, total);
      |w| == Min(5, total) &&
      (forall i :: 0 <= i < |w| ==> 1 <= w[i] <= total) &&
      (forall i :: 0 < i < |w| ==> w[i] == w[i - 1] + 1) &&
      (1 <= current <= total ==> current in w)
  {
    var w := Window(current, total);
    if 1 <= current <= total {
      var i := current - WindowPage(current, total, 0);
      assert 0 <= i < |w| && w[i] == current;
    }
  }

  /** The "Showing a-b of n" line for page `page`. */
  function Showing(page: int, n: nat): (int, int) {
    var start := (page - 1) * ItemsPerPage;
    (start + 1, Min(start + ItemsPerPage, n))
  }

  /** For a page that exists, the line counts exactly the items shown on it. */
  lemma ShowingSpec<T>(all: seq<T>, page: int)
    requires 1 <= page <= TotalPages(|all|)
    ensures var (a, b) := Showing(page, |all|);
      a == (page - 1) * ItemsPerPage + 1 && b - a + 1 == |PageSlice(all, page)| && 1 <= a <= b <= |all|
  {
    PageSliceSpec(all, page);
  }

  /** The page `handlePageChange(requested)` leaves: the requested one when it exists. */
  function PageAfter(current: int, requested: int, total: nat): int {
    if 1 <= requested <= total then requested else current
  }

  /** From an existing page, Previous (enabled only above page 1), Next (enabled only below
      the last page) and every window button lead to an existing page, and a request for a
      page that does not exist changes nothing. */
  lemma NavigationStaysInRange(current: int, total: nat, requested: int)
    requires 1 <= current <= total
    ensures 1 <= PageAfter(current, requested, total) <= total
    ensures !(1 <= requested <= total) ==> PageAfter(current, requested, total) == current
    ensures current != 1 ==> PageAfter(current, current - 1, total) == current - 1
    ensures current != total ==> PageAfter(current, current + 1, total) == current + 1
    ensures forall p :: p in Window(current, total) ==> PageAfter(current, p, total) == p
  {
    WindowSpec(current, total);
  }

  /** The page after the pagination effect: back to 1 when the page is past the last one. */
  function Settled(page: int, total: nat): int {
    if page > total && total > 0 then 1 else page
  }

  /** Once the effect has run, the page of a non-empty list exists and shows some codes. */
  lemma SettledSpec<T>(all: seq<T>, page: int)
    requires page >= 1
    ensures Settled(page, TotalPages(|all|)) >= 1
    ensures all != [] ==> Settled(page, TotalPages(|all|)) <= TotalPages(|all|) &&
                          PageSlice(all, Settled(page, TotalPages(|all|))) != []
  {
    if all != [] {
      PageSliceSpec(all, Settled(page, TotalPages(|all|)));
    }
  }

  datatype QuickSearch = Reload | Search(term: string) | Skip

  /** What `handleQuickSearch` does: an empty (or blank) term reloads the whole list, a term
      is searched for, trimmed, when the user has a token, and otherwise nothing happens. */
  function QuickSearchAction(quickSearch: string, hasToken: bool): (r: QuickSearch)
    ensures r == Reload <==> Trim(quickSearch) == []
    ensures r.Search? <==> hasToken && Trim(quickSearch) != []
    ensures r.Search? ==> r.term == Trim(quickSearch) && r.term != []
  {
    if !hasToken || Trim(quickSearch) == [] then
      (if Trim(quickSearch) == [] then Reload else Skip)
    else Search(Trim(quickSearch))
  }

  /** The page's list state. */
  class ListPage {
    var allErrorCodes: seq<ErrorCodeModel.ErrorCode>
    var errorCodes: seq<ErrorCodeModel.ErrorCode>
    var currentPage: int

    predicate Valid()
      reads this
    {
      currentPage >= 1
    }

    constructor ()
      ensures Valid() && allErrorCodes == [] && errorCodes == [] && currentPage == 1
    {
      allErrorCodes := [];
      errorCodes := [];
      currentPage := 1;
    }

    function TotalPagesNow(): nat
      reads this
    {
      TotalPages(|allErrorCodes|)
    }

    /** The outcome of `loadErrorCodes`: the codes it returned (none when the response has
        no data) and page 1 on success; an empty list, on the same page, on failure. */
    method LoadFinished(response: Result<Option<seq<ErrorCodeModel.ErrorCode>>, string>)
      requires Valid()
      modifies this
      ensures Valid() && errorCodes == old(errorCodes)
      ensures response.Success? ==> allErrorCodes == response.value.GetOr([]) && currentPage == 1
      ensures response.Failure? ==> allErrorCodes == [] && currentPage == old(currentPage)
    {
      if response.Success? {
        allErrorCodes := response.value.GetOr([]);
        currentPage := 1;
      } else {
        allErrorCodes := [];
      }
    }

    /** The outcome of the quick search: as a successful load, but a failed search keeps
        the list as it was. */
    method SearchFinished(response: Result<Option<seq<ErrorCodeModel.ErrorCode>>, string>)
      requires Valid()
      modifies this
      ensures Valid() && errorCodes == old(errorCodes)
      ensures response.Success? ==> allErrorCodes == response.value.GetOr([]) && currentPage == 1
      ensures response.Failure? ==> allErrorCodes == old(allErrorCodes) && currentPage == old(currentPage)
    {
      if response.Success? {
        allErrorCodes := response.value.GetOr([]);
        currentPage := 1;
      }
    }

    /** The pagination effect: show the current page's slice, and go back to page 1 when the
        current page is past the last one. */
    method PaginationEffect()
      requires Valid()
      modifies this
      ensures Valid() && allErrorCodes == old(allErrorCodes)
      ensures errorCodes == PageSlice(allErrorCodes, old(currentPage))
      ensures currentPage == Settled(old(currentPage), TotalPagesNow())
    {
      errorCodes := PageSlice(allErrorCodes, currentPage);
      var totalPages := TotalPages(|allErrorCodes|);
      if currentPage > totalPages && totalPages > 0 {
        currentPage := 1;
      }
    }

    /** `handlePageChange(page)`. */
    method HandlePageChange(page: int)
      requires Valid()
      modifies this
      ensures Valid() && allErrorCodes == old(allErrorCodes) && errorCodes == old(errorCodes)
      ensures currentPage == PageAfter(old(currentPage), page, TotalPagesNow())
    {
      if page >= 1 && page <= TotalPages(|allErrorCodes|) {
        currentPage := page;
      }
    }

    /** The pagination controls are drawn only when there is more than one page. */
    predicate ShowControls()
      reads this
    {
      TotalPagesNow() > 1
    }

    predicate PreviousDisabled(loading: bool)
      reads this
    {
      currentPage == 1 || loading
    }

    predicate NextDisabled(loading: bool)
      reads this
    {
      currentPage == TotalPagesNow() || loading
    }
  }
}
