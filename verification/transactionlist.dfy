/** The transaction list screen: the query it sends, how a page of results is merged into
    the list, the infinite-scroll guard, and the category icon. Each fetch is split into the
    synchronous part that starts it and the part that runs when it settles; the response
    (or what was thrown) is an input. */
module TransactionList {
  import opened Base
  import opened Api
  import Query
  import TransactionService

  type Transaction = TransactionService.Transaction

  const PerPage := 20
  const SortOrder := "date_desc"
  const LoadFailedMessage := "Failed to load transactions"

  // ---- the page count ----

  /** A JavaScript number as `Math.ceil(total / per_page)` can produce it from integers. */
  datatype PageCount = Pages(n: int) | PosInfinity | NegInfinity | NaN

  /** The least integer not below `a / b`. */
  function CeilDiv(a: int, b: int): int
    requires b != 0
  {
    if b > 0 then -((-a) / b) else -(a / (-b))
  }

  /** `CeilDiv` is the ceiling of the quotient: for a positive divisor, the least `r` with
      `a <= r * b`; for a negative one, the least `r` with `r * b <= a`. */
  lemma CeilDivIsCeiling(a: int, b: int)
    requires b != 0
    ensures b > 0 ==> (CeilDiv(a, b) - 1) * b < a <= CeilDiv(a, b) * b
    ensures b < 0 ==> CeilDiv(a, b) * b <= a < (CeilDiv(a, b) - 1) * b
  {
    var r := CeilDiv(a, b);
    if b > 0 {
      var q, m := (-a) / b, (-a) % b;
      assert -a == q * b + m && 0 <= m < b;
      assert r * b == -(q * b);
      assert (r - 1) * b == r * b - b;
    } else {
      var d := -b;
      var q, m := a / d, a % d;
      assert a == q * d + m && 0 <= m < d;
      assert r * b == q * d;
      assert (r - 1) * b == r * b + d;
    }
  }

  /** `Math.ceil(meta.total / meta.per_page)`: a division by zero gives an infinity of the
      total's sign, or `NaN` when the total is zero too. */
  function TotalPages(meta: TransactionService.PageMeta): (c: PageCount)
    ensures meta.perPage != 0 <==> c.Pages?
    ensures meta.perPage > 0 ==> (c.n - 1) * meta.perPage < meta.total <= c.n * meta.perPage
    ensures meta.perPage < 0 ==> c.n * meta.perPage <= meta.total < (c.n - 1) * meta.perPage
    ensures meta.perPage == 0 ==> (c.PosInfinity? <==> meta.total > 0) && (c.NegInfinity? <==> meta.total < 0)
  {
    if meta.perPage != 0 then
      CeilDivIsCeiling(meta.total, meta.perPage);
      Pages(CeilDiv(meta.total, meta.perPage))
    else if meta.total > 0 then PosInfinity
    else if meta.total < 0 then NegInfinity
    else NaN
  }

  /** `page < totalPages` on JavaScript numbers: every comparison with `NaN` is false. */
  predicate Below(page: int, c: PageCount) {
    match c
    case Pages(n) => page < n
    case PosInfinity => true
    case NegInfinity => false
    case NaN => false
  }

  // ---- the request ----

  /** The parameters `fetchTransactions` builds: the page, twenty per page, newest first,
      and the search text and category only when non-empty. */
  function FetchParams(pageNum: int, search: string, category: string): TransactionService.GetTransactionsParams {
    TransactionService.NoFilters.(
      page := Some(pageNum),
      perPage := Some(PerPage),
      sortBy := Some(SortOrder),
      q := if search != "" then Some(search) else None,
      category := if category != "" then Some(category) else None)
  }

  /** The request a fetch sends: a `GET` of the list whose query carries the page (unless
      it is zero), `per_page=20`, `sort_by=date_desc`, and the search text and category
      exactly when they are non-empty; no other filter is ever sent. */
  function FetchRequest(pageNum: int, search: string, category: string): (c: Call<Json.Json>)
    ensures c.verb == Get && c.endpoint == TransactionService.TransactionsEndpoint && c.payload.None?
    ensures c.options.headers.None? && c.options.params.Some?
    ensures var q := c.options.params.value;
      && Query.Lookup(q, "per_page") == Some("20")
      && Query.Lookup(q, "sort_by") == Some(SortOrder)
      && Query.Lookup(q, "page") == (if pageNum != 0 then Some(IntToString(pageNum)) else None)
      && Query.Lookup(q, "q") == (if search != "" then Some(search) else None)
      && Query.Lookup(q, "category") == (if category != "" then Some(category) else None)
      && Query.Lookup(q, "recorded_for").None? && Query.Lookup(q, "recorded_by").None?
      && Query.Lookup(q, "date_from").None? && Query.Lookup(q, "date_to").None?
  {
    assert IntToString(PerPage) == "20";
    TransactionService.GetTransactions(FetchParams(pageNum, search, category))
  }

  // ---- the list state ----

  datatype ListState = ListState(
    items: seq<Transaction>,
    loading: bool,
    refreshing: bool,
    error: Option<string>,
    page: int,
    totalPages: PageCount)

  /** The screen's initial `useState` values. */
  const Initial := ListState([], true, false, None, 1, Pages(1))

  /** The full-screen spinner replaces the list only while loading with nothing to show. */
  predicate ShowsSpinner(st: ListState) {
    st.loading && st.items == []
  }

  /** The synchronous start of `fetchTransactions` as written: the error is cleared, and
      only a replacing fetch raises the loading flag. */
  function StartFetch(st: ListState, append: bool): (t: ListState)
    ensures t.error.None?
    ensures t.loading <==> st.loading || !append
    ensures t.items == st.items && t.page == st.page && t.totalPages == st.totalPages && t.refreshing == st.refreshing
  {
    st.(loading := if append then st.loading else true, error := None)
  }

  /** How a fetch settles. On success the page's items replace the list, or follow it when
      appending, and the page number and page count are taken from the response; on any
      failure the list, page and count stay and the error message is set. Either way both
      loading flags drop. */
  function CompleteFetch(st: ListState, pageNum: int, append: bool,
                         outcome: Result<TransactionService.TransactionsResponse, Thrown>): (t: ListState)
    ensures !t.loading && !t.refreshing
    ensures outcome.Success? ==>
      && t.items == (if append then st.items else []) + outcome.value.data
      && t.page == pageNum && t.totalPages == TotalPages(outcome.value.meta) && t.error == st.error
    ensures outcome.Failure? ==>
      t.items == st.items && t.page == st.page && t.totalPages == st.totalPages && t.error == Some(LoadFailedMessage)
  {
    var settled := match outcome
      case Success(resp) =>
        st.(items := if append then st.items + resp.data else resp.data,
            totalPages := TotalPages(resp.meta), page := pageNum)
      case Failure(_) => st.(error := Some(LoadFailedMessage));
    settled.(loading := false, refreshing := false)
  }

  /** A response without `meta`: the list is set before reading `response.meta.total`
      throws, so the page's items replace or follow the list, while the page number and
      count stay and the error message is set as for any failure. */
  function CompleteFetchWithoutMeta(st: ListState, append: bool, data: seq<Transaction>): (t: ListState)
    ensures !t.loading && !t.refreshing
    ensures t.items == (if append then st.items else []) + data
    ensures t.page == st.page && t.totalPages == st.totalPages && t.error == Some(LoadFailedMessage)
  {
    st.(items := if append then st.items + data else data, error := Some(LoadFailedMessage),
        loading := false, refreshing := false)
  }

  /** A response without `meta` lists its items as a success would, yet keeps the page,
      the count and the message of a failure. Appended that way, the same page is still
      the next one the guard asks for. */
  lemma MissingMetaHalfSettles(st: ListState, pageNum: int, append: bool,
                               resp: TransactionService.TransactionsResponse, thrown: Thrown)
    ensures var m := CompleteFetchWithoutMeta(st, append, resp.data);
      var ok := CompleteFetch(st, pageNum, append, Success(resp));
      var failed := CompleteFetch(st, pageNum, append, Failure(thrown));
      m.items == ok.items && m.page == failed.page && m.totalPages == failed.totalPages
      && m.error == failed.error && !m.loading && !m.refreshing
    ensures append && LoadMore(st).Some? ==>
      LoadMore(CompleteFetchWithoutMeta(st, append, resp.data)) == LoadMore(st)
  {
  }

  /** `handleLoadMore`'s guard: the next page is requested only while the current page is
      below the page count and nothing is loading. */
  function LoadMore(st: ListState): (r: Option<int>)
    ensures r.Some? <==> Below(st.page, st.totalPages) && !st.loading
    ensures r.Some? ==> r.value == st.page + 1
  {
    if Below(st.page, st.totalPages) && !st.loading then Some(st.page + 1) else None
  }

  /** `handleRefresh`: the pull-to-refresh flag is raised and the first page is fetched to
      replace the list. */
  function Refresh(st: ListState): (t: ListState)
    ensures t.refreshing && t.loading && t.error.None?
    ensures t.items == st.items && t.page == st.page
  {
    StartFetch(st.(refreshing := true), false)
  }

  /** A refresh that succeeds shows exactly the first page, whatever was listed before. */
  lemma RefreshReplacesList(st: ListState, resp: TransactionService.TransactionsResponse)
    ensures var t := CompleteFetch(Refresh(st), 1, false, Success(resp));
      t.items == resp.data && t.page == 1 && !t.loading && !t.refreshing
  {
  }

  // ---- the load-more guard as written, and as intended ----

  /** As written, an append in flight leaves the guard open: a second scroll end (or a tap
      on the button) before the first fetch settles asks for the same page again. */
  lemma AppendInFlightKeepsGuardOpen(st: ListState)
    requires LoadMore(st).Some?
    ensures LoadMore(StartFetch(st, true)) == LoadMore(st)
  {
  }

  /** As written, when both requests for the next page succeed, that page is listed twice. */
  lemma DoubleLoadMoreDuplicatesPage(st: ListState, resp: TransactionService.TransactionsResponse)
    requires LoadMore(st).Some?
    ensures var n := LoadMore(st).value;
      var first := StartFetch(st, true);
      var second := StartFetch(first, true);
      LoadMore(first) == Some(n)
      && CompleteFetch(CompleteFetch(second, n, true, Success(resp)), n, true, Success(resp)).items
         == st.items + resp.data + resp.data
  {
  }

  /** A concrete instance: on page 1 of 3 with one row listed, two triggers both fetch
      page 2, and the row it returns is listed twice. */
  lemma DoubleLoadMoreExample(t: Transaction)
    ensures var st := ListState([t], false, false, None, 1, Pages(3));
      var resp := TransactionService.TransactionsResponse([t], TransactionService.PageMeta(60, 2, 20));
      var first := StartFetch(st, true);
      LoadMore(st) == Some(2) && LoadMore(first) == Some(2)
      && CompleteFetch(CompleteFetch(StartFetch(first, true), 2, true, Success(resp)), 2, true, Success(resp)).items
         == [t, t, t]
  {
    DoubleLoadMoreDuplicatesPage(ListState([t], false, false, None, 1, Pages(3)),
                                 TransactionService.TransactionsResponse([t], TransactionService.PageMeta(60, 2, 20)));
  }

  /** The intended start of a fetch: every fetch raises the loading flag, appends too. */
  function StartFetchGuarded(st: ListState, append: bool): (t: ListState)
    ensures t.loading && t.error.None?
    ensures t.items == st.items && t.page == st.page && t.totalPages == st.totalPages && t.refreshing == st.refreshing
  {
    st.(loading := true, error := None)
  }

  /** With the intended start, no second load-more can begin while a fetch is in flight. */
  lemma GuardedFetchClosesGuard(st: ListState, append: bool)
    ensures LoadMore(StartFetchGuarded(st, append)).None?
  {
  }

  /** The correction changes nothing else the screen shows: a replacing fetch starts as
      before, and an append to a non-empty list still keeps the list on screen. */
  lemma GuardedFetchSameScreen(st: ListState, append: bool)
    ensures !append ==> StartFetchGuarded(st, append) == StartFetch(st, append)
    ensures st.items != [] ==> !ShowsSpinner(StartFetchGuarded(st, append))
  {
  }

  /** Tapping or scrolling to load more, with the intended start: the page requested (if
      any) and the state while it is in flight. */
  function LoadMoreTap(st: ListState): (r: (ListState, Option<int>))
    ensures r.1 == LoadMore(st)
    ensures r.1.Some? ==> r.0.loading && LoadMore(r.0).None?
    ensures r.1.None? ==> r.0 == st
  {
    match LoadMore(st)
    case Some(n) => (StartFetchGuarded(st, true), Some(n))
    case None => (st, None)
  }

  /** With the intended start, two triggers in a row request the next page once. */
  lemma LoadMoreTwiceRequestsOnce(st: ListState)
    ensures LoadMoreTap(LoadMoreTap(st).0).1.None? || LoadMoreTap(st).1.None?
  {
  }

  // ---- the category icon ----

  const KnownCategories: set<string> := {"monthly", "food", "travel", "supplies"}

  /** `getCategoryIcon`: a switch on the lower-cased category. */
  function CategoryIcon(category: string): (icon: string)
    ensures icon in {"calendar", "restaurant", "airplane", "bag-handle", "cash"}
    ensures icon == "cash" <==> ToLower(category) !in KnownCategories
    ensures ToLower(category) == "monthly" ==> icon == "calendar"
    ensures ToLower(category) == "food" ==> icon == "restaurant"
    ensures ToLower(category) == "travel" ==> icon == "airplane"
    ensures ToLower(category) == "supplies" ==> icon == "bag-handle"
  {
    match ToLower(category)
    case "monthly" => "calendar"
    case "food" => "restaurant"
    case "travel" => "airplane"
    case "supplies" => "bag-handle"
    case _ => "cash"
  }

  /** The icon ignores letter case: a category and its lower-cased form share one. */
  lemma CategoryIconIgnoresCase(category: string)
    ensures CategoryIcon(ToLower(category)) == CategoryIcon(category)
  {
    ToLowerIdempotent(category);
  }
}
