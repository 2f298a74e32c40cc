/** The public business list: a 1-based page shown to the user over a 0-based
    backend page, with the page count computed on the client. */
module PublicList {
  import opened Wrappers

  /** Businesses per page. */
  const Limit: nat := 5

  /** The list state: the shown businesses, the current page (0 meaning "no results")
      and the page count. */
  datatype ListState<T> = ListState(items: seq<T>, currentPage: int, totalPages: nat, totalElements: Option<nat>)

  /** The state before the first response. */
  function Initial<T>(): ListState<T> {
    ListState([], 1, 1, None)
  }

  /** The backend page requested for a shown page: one less, never below zero. */
  function RequestedPage(page: int): (r: nat)
    ensures page >= 1 ==> r == page - 1
    ensures page < 1 ==> r == 0
  {
    if page - 1 > 0 then page - 1 else 0
  }

  /** `Math.ceil(total / limit)`, with no pages at all for no elements. */
  function TotalPages(total: nat, limit: nat): (r: nat)
    requires limit > 0
    ensures r == 0 <==> total == 0
    ensures r > 0 ==> (r - 1) * limit < total <= r * limit
  {
    if total == 0 then 0 else (total + limit - 1) / limit
  }

  /** One page of the response: its content (empty when missing) and `totalElements` (0 when missing). */
  datatype PageResponse<T> = PageResponse(content: seq<T>, total: nat)

  /** What a response leads to: a new request for another shown page, or a new state. */
  datatype Step<T> = Reload(page: int) | Applied(state: ListState<T>)

  /** `cargarNegocios` once the response to shown page `page` arrives; the state it
      produces does not depend on the one before. */
  function OnResponse<T>(page: int, resp: PageResponse<T>): (r: Step<T>)
    ensures var pages := TotalPages(resp.total, Limit);
      pages > 0 && page > pages ==> r == Reload(pages)
    ensures r.Applied? ==>
      r.state.items == resp.content && r.state.totalPages == TotalPages(resp.total, Limit)
      && r.state.totalElements == Some(resp.total)
    ensures r.Applied? ==> (r.state.currentPage == 0 <==> r.state.totalPages == 0)
    ensures r.Applied? && r.state.totalPages > 0 ==> 1 <= r.state.currentPage <= r.state.totalPages
    ensures r.Applied? && 1 <= page <= r.state.totalPages ==> r.state.currentPage == page
    ensures !(TotalPages(resp.total, Limit) > 0 && page > TotalPages(resp.total, Limit)) ==> r.Applied?
  {
    var pages := TotalPages(resp.total, Limit);
    if pages > 0 && page > pages then Reload(pages)
    else
      var current := if pages == 0 then 0 else (if page < 1 then 1 else page);
      Applied(ListState(resp.content, current, pages, Some(resp.total)))
  }

  /** A reload always asks for a page the same response would accept. */
  lemma ReloadSettles<T>(page: int, resp: PageResponse<T>)
    requires OnResponse(page, resp).Reload?
    ensures OnResponse(OnResponse(page, resp).page, resp).Applied?
    ensures OnResponse(OnResponse(page, resp).page, resp).state.currentPage == TotalPages(resp.total, Limit)
  {
  }

  /** `paginaAnterior`: the page to load, only when not on the first page. */
  function PreviousPage<T>(s: ListState<T>): (r: Option<int>)
    ensures r.Some? <==> s.currentPage > 1
    ensures r.Some? ==> r.value == s.currentPage - 1 && r.value >= 1
  {
    if s.currentPage > 1 then Some(s.currentPage - 1) else None
  }

  /** `paginaSiguiente`: the page to load, only when a later page exists. */
  function NextPage<T>(s: ListState<T>): (r: Option<int>)
    ensures r.Some? <==> s.totalPages > 0 && s.currentPage < s.totalPages
    ensures r.Some? ==> r.value == s.currentPage + 1
  {
    if s.totalPages > 0 && s.currentPage < s.totalPages then Some(s.currentPage + 1) else None
  }

  /** From an applied state, moving either way asks for a page inside the known range,
      so a response with an unchanged total is applied at that page without a reload. */
  lemma NavigationStaysInRange<T>(s: ListState<T>, resp: PageResponse<T>)
    requires s.totalPages > 0 && 1 <= s.currentPage <= s.totalPages
    requires TotalPages(resp.total, Limit) == s.totalPages
    ensures PreviousPage(s).Some? ==>
      OnResponse(PreviousPage(s).value, resp).Applied?
      && OnResponse(PreviousPage(s).value, resp).state.currentPage == s.currentPage - 1
    ensures NextPage(s).Some? ==>
      OnResponse(NextPage(s).value, resp).Applied?
      && OnResponse(NextPage(s).value, resp).state.currentPage == s.currentPage + 1
  {
  }
}
