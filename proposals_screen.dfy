/** The proposals screen: contracts whose model has the `proposal` context
    and the current company as beneficiary. Its query parameters, its status
    colours and the choice of what the body shows; the pagination is the one
    in ListPaging. */
module ProposalsScreen {
  import opened Options
  import opened JsText
  import opened StoreApi
  import opened ListPaging

  /** The parameters of the contracts `getItems` call made by the focus effect. */
  function ProposalParams(companyId: int, page: nat, perPage: nat, search: string): Params {
    WithSearch(ProposalBase(companyId, page, perPage), search)
  }

  /** `base` with the people-name filter, trimmed, when the search text holds
      more than blanks. */
  function WithSearch(base: Params, search: string): Params {
    var name := Trim(search);
    if name != [] then base["peoples.people.name" := Text(name)] else base
  }

  /** The keys every proposals request carries. */
  function ProposalBase(companyId: int, page: nat, perPage: nat): Params {
    map["beneficiary" := Number(companyId), "contractModel.context" := Text("proposal"),
        "page" := Number(page), "itemsPerPage" := Number(perPage)]
  }

  /** The request asks for proposal contracts of the company, one page of them. */
  lemma ProposalParamsFixed(companyId: int, page: nat, perPage: nat, search: string)
    ensures var r := ProposalParams(companyId, page, perPage, search);
            && "beneficiary" in r && r["beneficiary"] == Number(companyId)
            && "contractModel.context" in r && r["contractModel.context"] == Text("proposal")
            && "page" in r && r["page"] == Number(page)
            && "itemsPerPage" in r && r["itemsPerPage"] == Number(perPage)
  {
    var base := ProposalBase(companyId, page, perPage);
    var r := ProposalParams(companyId, page, perPage, search);
    if Trim(search) != [] {
      assert r == base["peoples.people.name" := Text(Trim(search))];
    } else {
      assert r == base;
    }
  }

  /** The people-name filter is sent, trimmed, exactly when the search text
      holds more than blanks, and no other key is ever sent. */
  lemma ProposalParamsSearch(companyId: int, page: nat, perPage: nat, search: string)
    ensures var r := ProposalParams(companyId, page, perPage, search);
            && ("peoples.people.name" in r <==> Trim(search) != [])
            && ("peoples.people.name" in r ==> r["peoples.people.name"] == Text(Trim(search)))
            && r.Keys <= {"beneficiary", "contractModel.context", "page", "itemsPerPage", "peoples.people.name"}
  {
  }

  /** The parameters of the refetch after a proposal was created
      (`handleCreateSuccess`), written out on their own in the screen. */
  function RefetchParams(companyId: int, page: nat, perPage: nat, search: string): Params {
    WithSearch(ProposalBase(companyId, page, perPage)["contractModel" := Text("proposal")], search)
  }

  /** The refetch is the focus request with one key more, `contractModel`. */
  lemma RefetchAddsContractModel(companyId: int, page: nat, perPage: nat, search: string)
    ensures "contractModel" !in ProposalParams(companyId, page, perPage, search)
    ensures RefetchParams(companyId, page, perPage, search)
         == ProposalParams(companyId, page, perPage, search)["contractModel" := Text("proposal")]
  {
    ProposalParamsSearch(companyId, page, perPage, search);
    RefetchIsFocusPlusModel(companyId, page, perPage, search);
  }

  /** The map equality of `RefetchAddsContractModel`. */
  lemma RefetchIsFocusPlusModel(companyId: int, page: nat, perPage: nat, search: string)
    ensures RefetchParams(companyId, page, perPage, search)
         == ProposalParams(companyId, page, perPage, search)["contractModel" := Text("proposal")]
  {
    assert |"contractModel"| != |"peoples.people.name"|;
    WithSearchAfterKey(ProposalBase(companyId, page, perPage), "contractModel", Text("proposal"), search);
  }

  /** A key other than the filter's may be set before or after the filter. */
  lemma WithSearchAfterKey(base: Params, k: string, v: ParamValue, search: string)
    requires k != "peoples.people.name"
    ensures WithSearch(base[k := v], search) == WithSearch(base, search)[k := v]
  {
    if Trim(search) != [] {
      UpdatesCommute(base, k, v, "peoples.people.name", Text(Trim(search)));
    }
  }

  /** Setting two different keys gives the same map in either order. */
  lemma UpdatesCommute<K, V>(m: map<K, V>, k1: K, v1: V, k2: K, v2: V)
    requires k1 != k2
    ensures m[k1 := v1][k2 := v2] == m[k2 := v2][k1 := v1]
  {
  }

  /** Blanks around the search text never change either request. */
  lemma ProposalParamsIgnorePadding(companyId: int, page: nat, perPage: nat, search: string)
    ensures ProposalParams(companyId, page, perPage, search) == ProposalParams(companyId, page, perPage, Trim(search))
    ensures RefetchParams(companyId, page, perPage, search) == RefetchParams(companyId, page, perPage, Trim(search))
  {
    WithSearchIgnorePadding(ProposalBase(companyId, page, perPage), search);
    WithSearchIgnorePadding(ProposalBase(companyId, page, perPage)["contractModel" := Text("proposal")], search);
  }

  /** The filter reads only the trimmed search text. */
  lemma WithSearchIgnorePadding(base: Params, search: string)
    ensures WithSearch(base, search) == WithSearch(base, Trim(search))
  {
    TrimIdempotent(search);
  }

  /** For a target already in lower case, lower-casing a text gives the target
      exactly when the two are equal ignoring case. */
  lemma LowerAsciiMatches(s: string, target: string)
    requires LowerAscii(target) == target
    ensures LowerAscii(s) == target <==> SameIgnoringCase(s, target)
  {
    if SameIgnoringCase(s, target) {
      assert forall i :: 0 <= i < |s| ==> LowerAscii(s)[i] == LowerAscii(target)[i];
    }
  }

  /** The badge colour of a contract status, `status?.toLowerCase()` matched
      against 'ativo', 'inativo' and 'pendente'; grey otherwise, and for a
      missing status. */
  function StatusColor(status: Option<string>): (r: string)
    ensures status.Some? && SameIgnoringCase(status.value, "ativo") ==> r == "#4CAF50"
    ensures status.Some? && SameIgnoringCase(status.value, "inativo") ==> r == "#F44336"
    ensures status.Some? && SameIgnoringCase(status.value, "pendente") ==> r == "#FF9800"
    ensures r == "#757575" <==>
              status.None? || !(SameIgnoringCase(status.value, "ativo") || SameIgnoringCase(status.value, "inativo")
                                || SameIgnoringCase(status.value, "pendente"))
  {
    match status
    case None => "#757575"
    case Some(s) =>
      var lower := LowerAscii(s);
      LowerAsciiMatches(s, "ativo");
      LowerAsciiMatches(s, "inativo");
      LowerAsciiMatches(s, "pendente");
      if lower == "ativo" then "#4CAF50"
      else if lower == "inativo" then "#F44336"
      else if lower == "pendente" then "#FF9800"
      else "#757575"
  }

  /** Statuses equal up to case get the same colour. */
  lemma StatusColorIgnoresCase(s: string, t: string)
    requires SameIgnoringCase(s, t)
    ensures StatusColor(Some(s)) == StatusColor(Some(t))
  {
    assert LowerAscii(s) == LowerAscii(t);
  }

  /** What the body of the screen shows. The list shows the page-size
      selector when its own condition holds and the pagination controls when
      `totalItems > itemsPerPage`. */
  datatype ListView =
    | Spinner
    | ErrorPanel
    | EmptyState
    | ContractList(selectorShown: bool, pagerShown: bool)

  /** The nested conditional of the body: loading first, then an error, then
      an empty result, then the list. */
  function RenderProposals(isLoading: bool, hasError: bool, count: nat, totalItems: nat, perPage: nat): (r: ListView)
    ensures r.Spinner? <==> isLoading
    ensures r.ErrorPanel? <==> !isLoading && hasError
    ensures r.EmptyState? <==> !isLoading && !hasError && count == 0
    ensures r.ContractList? <==> !isLoading && !hasError && count > 0
    ensures r.ContractList? ==> r.selectorShown && r.pagerShown == ControlsShown(totalItems, perPage)
  {
    if isLoading then Spinner
    else if hasError then ErrorPanel
    else if count == 0 then EmptyState
    else ContractList(!isLoading && count > 0 && !hasError, totalItems > perPage)
  }

  /** The pager the paging handlers can be reached from is exactly the one
      this body draws: a list is shown when the screen is neither loading nor
      failed and the page holds a contract. */
  lemma PagerDrawnIffRendered(isLoading: bool, hasError: bool, count: nat, totalItems: nat, perPage: nat)
    ensures PagerDrawn(!isLoading && !hasError && count > 0, totalItems, perPage)
            <==> (var v := RenderProposals(isLoading, hasError, count, totalItems, perPage); v.ContractList? && v.pagerShown)
  {
  }
}
