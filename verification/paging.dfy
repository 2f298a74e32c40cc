/** The two owner-side business lists that load page after page: the private
    list, which stops after the server's last page number, and "my businesses",
    which stops at the page flagged `last`. Both guard against overlapping
    loads, start over on reset and append otherwise. */
module Paging {
  import opened Wrappers
  import opened Text

  /** The list state: what is shown, the next page to ask for, whether more
      pages remain, and whether a load is in flight. */
  datatype PagingState<T> = PagingState(items: seq<T>, currentPage: int, hasMoreData: bool, isLoading: bool)

  function Initial<T>(): PagingState<T> {
    PagingState([], 0, true, false)
  }

  /** The state a load starts from: emptied and back at page 0 on reset. */
  function Prepared<T>(s: PagingState<T>, reset: bool): (r: PagingState<T>)
    ensures reset ==> r.items == [] && r.currentPage == 0 && r.hasMoreData
    ensures !reset ==> r.items == s.items && r.currentPage == s.currentPage && r.hasMoreData == s.hasMoreData
  {
    if reset then s.(items := [], currentPage := 0, hasMoreData := true) else s
  }

  /** The outcome of a load: the new state, the page requested (None when the
      call returned at once), and whether it logged the user out. */
  datatype Load<T> = Load(state: PagingState<T>, requested: Option<int>, logsOut: bool)

  // ----------------------------------------------------- private list

  /** The private-list response: content with the server's page count, an
      unexpected shape, or a failure with its message. */
  datatype PrivateResponse<T> = PrivatePage(content: seq<T>, totalPages: int) | PrivateBadShape | PrivateFailed(message: string)

  /** `loadBusinesses` of the private list. */
  function LoadPrivate<T>(s: PagingState<T>, reset: bool, resp: PrivateResponse<T>): (r: Load<T>)
    ensures s.isLoading ==> r == Load(s, None, false)
    ensures !s.isLoading ==> !r.state.isLoading
    ensures !s.isLoading ==> r.requested == Some(Prepared(s, reset).currentPage)
    ensures !s.isLoading && resp.PrivatePage? ==>
      var p := Prepared(s, reset);
      && r.state.items == p.items + resp.content
      && (r.state.hasMoreData <==> p.currentPage < resp.totalPages - 1)
      && r.state.currentPage == (if r.state.hasMoreData then p.currentPage + 1 else p.currentPage)
    ensures !s.isLoading && !resp.PrivatePage? ==>
      r.state == Prepared(s, reset).(isLoading := false)
    ensures r.logsOut <==> !s.isLoading && resp.PrivateFailed? && Contains(resp.message, "autenticado")
  {
    if s.isLoading then Load(s, None, false)
    else
      var p := Prepared(s, reset);
      match resp
      case PrivatePage(content, totalPages) =>
        var more := p.currentPage < totalPages - 1;
        var items := if reset then content else p.items + content;
        Load(PagingState(items, if more then p.currentPage + 1 else p.currentPage, more, false), Some(p.currentPage), false)
      case PrivateBadShape => Load(p.(isLoading := false), Some(p.currentPage), false)
      case PrivateFailed(m) => Load(p.(isLoading := false), Some(p.currentPage), Contains(m, "autenticado"))
  }

  // ------------------------------------------------------- my businesses

  /** The "my businesses" response: content with the `last` flag, an unexpected
      shape, or a failure with its message. */
  datatype OwnResponse<T> = OwnPage(content: seq<T>, last: bool) | OwnBadShape | OwnFailed(message: string)

  /** `loadBusinesses` of "my businesses". */
  function LoadOwn<T>(s: PagingState<T>, reset: bool, resp: OwnResponse<T>): (r: Load<T>)
    ensures s.isLoading ==> r == Load(s, None, false)
    ensures !s.isLoading ==> !r.state.isLoading
    ensures !s.isLoading ==> r.requested == Some(Prepared(s, reset).currentPage)
    ensures !s.isLoading && resp.OwnPage? ==>
      var p := Prepared(s, reset);
      && r.state.items == p.items + resp.content
      && r.state.hasMoreData == !resp.last
      && r.state.currentPage == (if resp.last then p.currentPage else p.currentPage + 1)
    ensures !s.isLoading && !resp.OwnPage? ==>
      r.state == Prepared(s, reset).(isLoading := false)
    ensures r.logsOut <==> !s.isLoading && resp.OwnFailed? && Contains(resp.message, "sesión ha expirado")
  {
    if s.isLoading then Load(s, None, false)
    else
      var p := Prepared(s, reset);
      match resp
      case OwnPage(content, last) =>
        var items := if reset then content else p.items + content;
        Load(PagingState(items, if !last then p.currentPage + 1 else p.currentPage, !last, false), Some(p.currentPage), false)
      case OwnBadShape => Load(p.(isLoading := false), Some(p.currentPage), false)
      case OwnFailed(m) => Load(p.(isLoading := false), Some(p.currentPage), Contains(m, "sesión ha expirado"))
  }

  /** The pages of "my businesses" loaded one after another: a reset, then appends. */
  function LoadOwnPages<T>(s: PagingState<T>, pages: seq<seq<T>>): (r: PagingState<T>)
    requires |pages| > 0
    requires !s.isLoading
    decreases |pages|
  {
    if |pages| == 1 then LoadOwn(s, true, OwnPage(pages[0], false)).state
    else LoadOwn(LoadOwnPages(s, pages[..|pages| - 1]), false, OwnPage(pages[|pages| - 1], false)).state
  }

  /** The pieces joined in order. */
  function Concat<T>(pages: seq<seq<T>>): seq<T> {
    if pages == [] then [] else Concat(pages[..|pages| - 1]) + pages[|pages| - 1]
  }

  /** After a reset and `k - 1` appends, the list holds the pages in order and the
      next page to ask for is `k`. */
  lemma {:induction false} LoadOwnPagesAccumulates<T>(s: PagingState<T>, pages: seq<seq<T>>)
    requires |pages| > 0 && !s.isLoading
    ensures LoadOwnPages(s, pages).items == Concat(pages)
    ensures LoadOwnPages(s, pages).currentPage == |pages|
    ensures !LoadOwnPages(s, pages).isLoading && LoadOwnPages(s, pages).hasMoreData
  {
    if |pages| == 1 {
      assert Concat(pages) == Concat(pages[..0]) + pages[0];
      assert pages[..0] == [];
    } else {
      LoadOwnPagesAccumulates(s, pages[..|pages| - 1]);
    }
  }

  /** Appending never reorders or drops what is shown, and the page never goes back. */
  lemma AppendKeepsPrefix<T>(s: PagingState<T>, privateResp: PrivateResponse<T>, ownResp: OwnResponse<T>)
    requires !s.isLoading
    ensures var r := LoadPrivate(s, false, privateResp).state;
      r.items[..|s.items|] == s.items && s.currentPage <= r.currentPage <= s.currentPage + 1
    ensures var r := LoadOwn(s, false, ownResp).state;
      r.items[..|s.items|] == s.items && s.currentPage <= r.currentPage <= s.currentPage + 1
  {
  }

  // --------------------------------------------------------- categories

  /** A business category. */
  datatype Category = Category(id: string, name: string)

  /** Position `k` holds the first category with the given id. */
  predicate FirstWithId(cs: seq<Category>, id: string, k: int) {
    0 <= k < |cs| && cs[k].id == id && forall j :: 0 <= j < k ==> cs[j].id != id
  }

  /** At most one position is the first with an id. */
  lemma FirstUnique(cs: seq<Category>, id: string, k: int, k': int)
    requires FirstWithId(cs, id, k) && FirstWithId(cs, id, k')
    ensures k == k'
  {
  }

  /** `categories.find(c => c.id === id)`: the first category with the given id. */
  function FindCategory(cs: seq<Category>, id: string): (r: Option<Category>)
    ensures r.Some? ==> r.value in cs && r.value.id == id
    ensures r.Some? ==> exists k :: FirstWithId(cs, id, k) && cs[k] == r.value
    ensures r.None? <==> forall i :: 0 <= i < |cs| ==> cs[i].id != id
  {
    if cs == [] then None
    else if cs[0].id == id then
      assert FirstWithId(cs, id, 0);
      Some(cs[0])
    else
      FirstShift(cs, id);
      FindCategory(cs[1..], id)
  }

  /** When the head does not match, the first match of the tail is the first of the list, one further on. */
  lemma FirstShift(cs: seq<Category>, id: string)
    requires cs != [] && cs[0].id != id
    ensures forall k :: FirstWithId(cs[1..], id, k) ==> FirstWithId(cs, id, k + 1) && cs[k + 1] == cs[1..][k]
  {
  }

  /** The name of the first category with the id, once it is known to exist. */
  lemma FoundName(cs: seq<Category>, id: string, k: int)
    requires FirstWithId(cs, id, k)
    ensures FindCategory(cs, id) == Some(cs[k])
  {
    var r := FindCategory(cs, id);
    assert r.Some?;
    var k' :| FirstWithId(cs, id, k') && cs[k'] == r.value;
    FirstUnique(cs, id, k, k');
  }

  /** `getCategoryName` of the private list: nothing for an empty id, else the
      matching category's name, else nothing. */
  function PrivateCategoryName(cs: seq<Category>, id: string): (r: string)
    ensures id == "" ==> r == ""
    ensures id != "" && r != "" ==> exists i :: 0 <= i < |cs| && cs[i].id == id && cs[i].name == r
    ensures (forall i :: 0 <= i < |cs| ==> cs[i].id != id) ==> r == ""
    ensures id != "" ==> forall k :: FirstWithId(cs, id, k) ==> r == cs[k].name
  {
    if id == "" then ""
    else match FindCategory(cs, id)
      case Some(c) => c.name
      case None => ""
  }

  /** `getCategoryName` of "my businesses": the matching category's name, else nothing. */
  function OwnCategoryName(cs: seq<Category>, id: string): (r: string)
    ensures r != "" ==> exists i :: 0 <= i < |cs| && cs[i].id == id && cs[i].name == r
    ensures (forall i :: 0 <= i < |cs| ==> cs[i].id != id) ==> r == ""
    ensures forall k :: FirstWithId(cs, id, k) ==> r == cs[k].name
  {
    match FindCategory(cs, id)
    case Some(c) => c.name
    case None => ""
  }

  /** The two lookups differ only for the empty id. */
  lemma CategoryLookupsAgree(cs: seq<Category>, id: string)
    requires id != ""
    ensures PrivateCategoryName(cs, id) == OwnCategoryName(cs, id)
  {
  }
}
