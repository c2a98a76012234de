/** Pagination of the two list screens (opportunities and proposals): both
    keep `searchText`, `currentPage` and `itemsPerPage` as component state,
    with the same Previous/Next handlers, the same disabled conditions, the
    same page-size dropdown and the same effect that returns to page 1 when
    the search text or the page size changes. */
module ListPaging {
  import opened JsText

  /** The sizes offered by the "Por página" dropdown. */
  const PageSizes: set<nat> := {5, 10, 20, 50}

  /** `Math.ceil(totalItems / itemsPerPage)`: the smallest page count whose
      pages hold every item. */
  function LastPage(total: nat, perPage: nat): (r: nat)
    requires perPage > 0
    ensures r * perPage >= total
    ensures r > 0 ==> (r - 1) * perPage < total
    ensures r == 0 <==> total == 0
  {
    var q := (total + perPage - 1) / perPage;
    var m := (total + perPage - 1) % perPage;
    assert total + perPage - 1 == q * perPage + m;
    assert (q - 1) * perPage == q * perPage - perPage;
    q
  }

  /** The pagination controls are rendered only when `totalItems > itemsPerPage`. */
  predicate ControlsShown(total: nat, perPage: nat) {
    total > perPage
  }

  /** The pager is drawn only below a list that is shown (neither loading,
      nor failed, nor empty) and only when there is more than one page. */
  predicate PagerDrawn(listShown: bool, total: nat, perPage: nat) {
    listShown && ControlsShown(total, perPage)
  }

  /** Previous is disabled exactly on page 1. */
  predicate PrevDisabled(page: nat) {
    page == 1
  }

  /** Next is disabled from the last page on. */
  predicate NextDisabled(page: nat, total: nat, perPage: nat)
    requires perPage > 0
  {
    page >= LastPage(total, perPage)
  }

  /** `Math.max(1, prev - 1)`. */
  function PreviousPage(page: nat): (r: nat)
    ensures r >= 1
    ensures page > 1 ==> r == page - 1
    ensures page <= 1 ==> r == 1
  {
    if page > 1 then page - 1 else 1
  }

  /** `Math.min(Math.ceil(totalItems / itemsPerPage), prev + 1)`. */
  function NextPage(page: nat, last: nat): (r: nat)
    ensures r <= last && r <= page + 1
    ensures page < last ==> r == page + 1
  {
    if page + 1 <= last then page + 1 else last
  }

  /** The caption between the two buttons. */
  function PageLabel(page: nat, total: nat, perPage: nat): string
    requires perPage > 0
  {
    "Página " + NatToString(page) + " de " + NatToString(LastPage(total, perPage))
  }

  /** The controls appear exactly when there is more than one page. */
  lemma ControlsShownIffSeveralPages(total: nat, perPage: nat)
    requires perPage > 0
    ensures ControlsShown(total, perPage) <==> LastPage(total, perPage) >= 2
  {
    var r := LastPage(total, perPage);
    if r == 1 {
      assert r * perPage == perPage;
    } else if r >= 2 {
      var extra: nat := (r - 2) * perPage;
      assert (r - 1) * perPage == perPage + extra;
    }
  }

  /** When the controls are shown, Next is enabled on page 1 and Previous is
      disabled there: the first press that can change anything is Next. */
  lemma FirstPageOfSeveral(total: nat, perPage: nat)
    requires perPage > 0 && ControlsShown(total, perPage)
    ensures PrevDisabled(1) && !NextDisabled(1, total, perPage)
  {
    ControlsShownIffSeveralPages(total, perPage);
  }

  /** One run of the focus effect's list request: the search text, page and
      page size it is made with. The opportunities screen sends it as
      `OpportunityParams` of these, the proposals screen as `ProposalParams`. */
  datatype PageQuery = PageQuery(search: string, page: nat, perPage: nat)

  /** The search text and the paging state of one list screen, with the list
      requests made so far. The focus effect depends on the search text, the
      page and the page size, so it requests the list again whenever one of
      them changes; it is declared before the effect that returns to page 1. */
  class ListState {
    var searchText: string
    var currentPage: nat
    var itemsPerPage: nat
    var requests: seq<PageQuery>

    /** The request that matches the state as it is now. */
    function Current(): PageQuery
      reads this
    {
      PageQuery(searchText, currentPage, itemsPerPage)
    }

    /** The page is at least 1, the size is one the dropdown offers, and the
        latest request is the one for the current state. */
    ghost predicate Valid()
      reads this
    {
      currentPage >= 1 && itemsPerPage in PageSizes && requests != [] && requests[|requests| - 1] == Current()
    }

    /** `useState('')`, `useState(1)`, `useState(10)`, and the request the
        focus effect makes when the screen is first shown. */
    constructor ()
      ensures Valid()
      ensures searchText == "" && currentPage == 1 && itemsPerPage == 10
      ensures requests == [PageQuery("", 1, 10)]
    {
      searchText, currentPage, itemsPerPage := "", 1, 10;
      requests := [PageQuery("", 1, 10)];
    }

    /** A press on "Anterior": it reaches the handler only when the pager is
        drawn below a shown list (`listShown` is false while loading, after an
        error and for an empty page) and the button is enabled; the new page
        is then requested. */
    method PressPrevious(listShown: bool, totalItems: nat)
      requires Valid()
      modifies this
      ensures Valid()
      ensures searchText == old(searchText) && itemsPerPage == old(itemsPerPage)
      ensures currentPage == if PagerDrawn(listShown, totalItems, itemsPerPage) && !PrevDisabled(old(currentPage))
                             then PreviousPage(old(currentPage)) else old(currentPage)
      ensures requests == if currentPage != old(currentPage) then old(requests) + [Current()] else old(requests)
      ensures currentPage <= old(currentPage)
      ensures old(currentPage) <= LastPage(totalItems, itemsPerPage) ==> currentPage <= LastPage(totalItems, itemsPerPage)
    {
      if PagerDrawn(listShown, totalItems, itemsPerPage) && !PrevDisabled(currentPage) {
        currentPage := PreviousPage(currentPage);
        requests := requests + [Current()];
      }
    }

    /** A press on "Próxima": it reaches the handler only when the pager is
        drawn below a shown list and the button is enabled; the new page is
        then requested. */
    method PressNext(listShown: bool, totalItems: nat)
      requires Valid()
      modifies this
      ensures Valid()
      ensures searchText == old(searchText) && itemsPerPage == old(itemsPerPage)
      ensures currentPage == if PagerDrawn(listShown, totalItems, itemsPerPage) && !NextDisabled(old(currentPage), totalItems, itemsPerPage)
                             then NextPage(old(currentPage), LastPage(totalItems, itemsPerPage)) else old(currentPage)
      ensures requests == if currentPage != old(currentPage) then old(requests) + [Current()] else old(requests)
      ensures currentPage >= old(currentPage)
      ensures old(currentPage) <= LastPage(totalItems, itemsPerPage) ==> currentPage <= LastPage(totalItems, itemsPerPage)
    {
      if PagerDrawn(listShown, totalItems, itemsPerPage) && !NextDisabled(currentPage, totalItems, itemsPerPage) {
        currentPage := NextPage(currentPage, LastPage(totalItems, itemsPerPage));
        requests := requests + [Current()];
      }
    }

    /** Typing in the search box (`onChangeText`). A changed text first runs
        the focus effect with the page as it was, then the reset effect moves
        to page 1, which runs the focus effect again when the page was not 1:
        the new search is requested on the old page before page 1. */
    method ChangeSearchText(text: string)
      requires Valid()
      modifies this
      ensures Valid()
      ensures searchText == text && itemsPerPage == old(itemsPerPage)
      ensures currentPage == if text != old(searchText) then 1 else old(currentPage)
      ensures text == old(searchText) ==> requests == old(requests)
      ensures text != old(searchText) ==>
                requests == old(requests) + [PageQuery(text, old(currentPage), itemsPerPage)]
                            + (if old(currentPage) != 1 then [PageQuery(text, 1, itemsPerPage)] else [])
    {
      if text != searchText {
        searchText := text;
        requests := requests + [Current()];
        if currentPage != 1 {
          currentPage := 1;
          requests := requests + [Current()];
        }
      }
    }

    /** Choosing a size in the dropdown: `setItemsPerPage(size)` and
        `setCurrentPage(1)` in one update, which the focus effect requests
        when either changed; the reset effect then finds page 1 already. */
    method SelectPageSize(size: nat)
      requires Valid()
      requires size in PageSizes
      modifies this
      ensures Valid()
      ensures itemsPerPage == size && currentPage == 1 && searchText == old(searchText)
      ensures requests == if size != old(itemsPerPage) || old(currentPage) != 1
                          then old(requests) + [PageQuery(searchText, 1, size)] else old(requests)
    {
      var changed := size != itemsPerPage || currentPage != 1;
      itemsPerPage := size;
      currentPage := 1;
      if changed {
        requests := requests + [Current()];
      }
    }
  }

  /** 25 items at 10 per page read "Página 1 de 3"; two presses on Next reach
      "Página 3 de 3", where Next is disabled. A search typed there is first
      requested on page 3, then on page 1. */
  method TwentyFiveItemsScenario() {
    var list := new ListState();
    assert LastPage(25, 10) == 3;
    assert PageLabel(list.currentPage, 25, list.itemsPerPage) == "Página 1 de 3";
    list.PressNext(true, 25);
    list.PressNext(true, 25);
    assert list.currentPage == 3;
    assert PageLabel(list.currentPage, 25, list.itemsPerPage) == "Página 3 de 3";
    assert NextDisabled(list.currentPage, 25, list.itemsPerPage);
    list.PressNext(true, 25);
    assert list.currentPage == 3;
    assert list.requests == [PageQuery("", 1, 10), PageQuery("", 2, 10), PageQuery("", 3, 10)];
    list.ChangeSearchText("ana");
    assert list.currentPage == 1;
    assert list.requests[3..] == [PageQuery("ana", 3, 10), PageQuery("ana", 1, 10)];
  }

  /** 15 items at 10 per page, on page 2, whose response came back empty: the
      screen shows the empty state instead of the list, no pager is drawn, and
      a press changes nothing. */
  method EmptyPageScenario() {
    var list := new ListState();
    list.PressNext(true, 15);
    assert list.currentPage == 2;
    var before := list.requests;
    list.PressPrevious(false, 15);
    assert list.currentPage == 2 && list.requests == before;
    list.PressPrevious(true, 15);
    assert list.currentPage == 1;
  }
}
