/**
 * components/shared/collection.tsx: the pagination controls under the image
 * collection.
 */
module Collection {
  import opened Js
  import opened Utils

  datatype PageAction = Prev | Next

  /** The `totalPages` prop, 1 when the caller leaves it out. */
  function TotalPages(prop: Option<int>): (total: int)
    ensures prop.Some? ==> total == prop.value
    ensures prop.None? ==> !ShowsPagination(total) && PrevDisabled(1) && NextDisabled(1, total)
  {
    if prop.Some? then prop.value else 1
  }

  /** The controls are rendered only for more than one page, that is, exactly
      when the first page has a next one. */
  predicate ShowsPagination(totalPages: int)
    ensures ShowsPagination(totalPages) <==> !NextDisabled(1, totalPages)
  {
    totalPages > 1
  }

  /** 'prev' is disabled exactly when it would go below page 1. */
  predicate PrevDisabled(page: int)
    ensures PrevDisabled(page) <==> PageValue(Prev, page) < 1
  {
    page <= 1
  }

  /** 'next' is disabled exactly when it would go past the last page. */
  predicate NextDisabled(page: int, totalPages: int)
    ensures NextDisabled(page, totalPages) <==> PageValue(Next, page) > totalPages
  {
    page >= totalPages
  }

  /** Whether the button for `action` can be clicked. */
  predicate Enabled(action: PageAction, page: int, totalPages: int) {
    ShowsPagination(totalPages) &&
    match action
    case Prev => !PrevDisabled(page)
    case Next => !NextDisabled(page, totalPages)
  }

  /** The page `onPageChange` asks for. */
  function PageValue(action: PageAction, page: int): (value: int)
    ensures action == Next ==> value > page
    ensures action == Prev ==> value < page
    ensures value - page == 1 || page - value == 1
  {
    match action
    case Next => page + 1
    case Prev => page - 1
  }

  /** `onPageChange`: the URL pushed to the router. */
  function OnPageChange(pathname: string, searchParams: Query, page: int, action: PageAction): (url: Url)
    ensures url.pathname == pathname
    ensures "page" in url.query && url.query["page"] == QNum(PageValue(action, page))
    ensures forall k :: k != "page" ==>
      (k in url.query <==> k in searchParams && searchParams[k] != QNull)
      && (k in url.query ==> url.query[k] == searchParams[k])
  {
    FormUrlQuery(pathname, searchParams, "page", QNum(PageValue(action, page)))
  }

  /** Without the prop there is one page, so no controls are shown. */
  lemma DefaultHidesPagination()
    ensures !ShowsPagination(TotalPages(None))
  {
  }

  /** A click that the disabled rules let through keeps the page in range, and
      each rule disables exactly the move that would leave it. */
  lemma EnabledMoveStaysInRange(action: PageAction, page: int, totalPages: int)
    requires 1 <= page <= totalPages
    ensures Enabled(action, page, totalPages) ==> 1 <= PageValue(action, page) <= totalPages
    ensures ShowsPagination(totalPages) && !Enabled(action, page, totalPages) ==>
      !(1 <= PageValue(action, page) <= totalPages)
  {
  }

  /** Navigation rewrites only the `page` key; every other non-null key and its
      value is kept. */
  lemma OnPageChangeKeepsOtherKeys(pathname: string, searchParams: Query, page: int, action: PageAction)
    requires forall k :: k in searchParams ==> searchParams[k] != QNull
    ensures OnPageChange(pathname, searchParams, page, action).query
            == searchParams["page" := QNum(PageValue(action, page))]
  {
    var q := OnPageChange(pathname, searchParams, page, action).query;
    assert q.Keys == searchParams.Keys + {"page"};
  }

  /** Going back after going forward restores the page number and the rest of the query. */
  lemma NextThenPrev(pathname: string, searchParams: Query, page: int)
    ensures var forward := OnPageChange(pathname, searchParams, page, Next);
            OnPageChange(pathname, forward.query, page + 1, Prev)
            == FormUrlQuery(pathname, searchParams, "page", QNum(page))
  {
    var forward := OnPageChange(pathname, searchParams, page, Next);
    var back := OnPageChange(pathname, forward.query, page + 1, Prev);
    var direct := FormUrlQuery(pathname, searchParams, "page", QNum(page));
    assert back.query.Keys == direct.query.Keys;
  }
}
