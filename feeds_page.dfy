/** The feed page: how the route parameters set the shared feed query, how
    items are paged in by the id of the last item loaded, which items are
    shown, and which article is selected. */
module FeedsPage {
  import opened Wrappers
  import opened BackendTypes
  import Js
  import Lists
  import QueryProviders
  import NewsBackend

  // ------------------------------------------------------------ route params

  /** The query the route effect sets: a feed route shows that feed, a
      folder route that folder, any other route every item; the filter is
      kept. A parameter counts when it is not empty. */
  function ParamsQuery(q: FeedQuery, feedId: Option<string>, folderId: Option<string>): FeedQuery {
    if Present(feedId) then FeedQuery(Some(FeedOnly), q.feedFilter, feedId, None)
    else if Present(folderId) then FeedQuery(Some(FolderFeeds), q.feedFilter, None, folderId)
    else FeedQuery(None, q.feedFilter, None, None)
  }

  /** The effect keeps the filter, never sets both ids, lets a feed id win
      over a folder id, and depends on the route alone. */
  lemma ParamsQuerySpec(q: FeedQuery, feedId: Option<string>, folderId: Option<string>)
    ensures var r := ParamsQuery(q, feedId, folderId);
      && r.feedFilter == q.feedFilter
      && !(r.feedId.Some? && r.folderId.Some?)
      && (r.feedType == Some(FeedOnly) <==> Present(feedId))
      && (r.feedType == Some(FolderFeeds) <==> !Present(feedId) && Present(folderId))
      && (r.feedType.None? <==> !Present(feedId) && !Present(folderId))
      && (Present(feedId) ==> r.feedId == feedId)
      && (!Present(feedId) && Present(folderId) ==> r.folderId == folderId)
      && ParamsQuery(r, feedId, folderId) == r
  {
  }

  /** What the backend is then asked for: the feed by its id, the folder by
      its id, or every item. */
  lemma ParamsQueryRequest(q: FeedQuery, feedId: Option<string>, folderId: Option<string>)
    ensures var r := ParamsQuery(q, feedId, folderId);
      && (Present(feedId) ==>
            NewsBackend.NextcloudFeedType(r) == "0" && NewsBackend.ItemsId(r) == feedId.value)
      && (!Present(feedId) && Present(folderId) ==>
            NewsBackend.NextcloudFeedType(r) == "1" && NewsBackend.ItemsId(r) == folderId.value)
      && (!Present(feedId) && !Present(folderId) ==>
            NewsBackend.NextcloudFeedType(r) == "3" && NewsBackend.ItemsId(r) == "0")
  {
  }

  /** The effect that runs when the route changes. */
  method OnRouteChange(state: QueryProviders.FeedQueryState, feedId: Option<string>, folderId: Option<string>)
    modifies state
    ensures state.query == ParamsQuery(old(state.query), feedId, folderId)
  {
    var filter := state.query.feedFilter;
    if feedId.Some? && feedId.value != "" {
      state.query := FeedQuery(Some(FeedOnly), filter, feedId, None);
    } else if folderId.Some? && folderId.value != "" {
      state.query := FeedQuery(Some(FolderFeeds), filter, None, folderId);
    } else {
      state.query := FeedQuery(None, filter, None, None);
    }
  }

  // ----------------------------------------------------------------- paging

  /** `getNextPageParam`: the id of the last item loaded, or none after an
      empty page. */
  function NextPageParam(lastPage: seq<FeedItem>): (r: Option<int>)
    ensures r.None? <==> lastPage == []
    ensures r.Some? ==> r.value == lastPage[|lastPage| - 1].id
  {
    if |lastPage| == 0 then None else Some(lastPage[|lastPage| - 1].id)
  }

  /** The server's list, newest first: ids strictly decrease and are
      positive. */
  ghost predicate NewestFirst(all: seq<FeedItem>) {
    && (forall i :: 0 <= i < |all| ==> all[i].id > 0)
    && (forall i, j :: 0 <= i < j < |all| ==> all[i].id > all[j].id)
  }

  function IdBelow(c: int): FeedItem -> bool {
    (it: FeedItem) => it.id < c
  }

  /** Where the items older than the cursor start; without a cursor, at
      the beginning. */
  function CursorStart(all: seq<FeedItem>, cursor: int): (s: nat)
    ensures s <= |all|
  {
    if cursor <= 0 then 0
    else match Lists.FindIndex(all, IdBelow(cursor))
      case Some(i) => i
      case None => |all|
  }

  /** The page the backend returns for a cursor: up to a batch of the
      items older than it. */
  function CursorWindow(all: seq<FeedItem>, cursor: int): (r: seq<FeedItem>)
    ensures |r| <= NewsBackend.ItemsPerPage
  {
    var s := CursorStart(all, cursor);
    all[s..if s + NewsBackend.ItemsPerPage <= |all| then s + NewsBackend.ItemsPerPage else |all|]
  }

  /** The cursor each page was fetched with: 0 for the first, the next
      page parameter of the page before for the others. */
  function CursorBefore(pages: seq<seq<FeedItem>>, k: nat): int
    requires k <= |pages|
  {
    if k == 0 then 0 else NextPageParam(pages[k - 1]).GetOr(0)
  }

  /** Every page was fetched with the cursor of the page before it, and
      only after a page that was not empty. */
  ghost predicate FetchedInOrder(all: seq<FeedItem>, pages: seq<seq<FeedItem>>) {
    forall k :: 0 <= k < |pages| ==>
      && pages[k] == CursorWindow(all, CursorBefore(pages, k))
      && (k + 1 < |pages| ==> pages[k] != [])
  }

  lemma FetchedInit(all: seq<FeedItem>, pages: seq<seq<FeedItem>>)
    requires FetchedInOrder(all, pages) && pages != []
    ensures FetchedInOrder(all, pages[..|pages| - 1])
  {
    var init := pages[..|pages| - 1];
    forall k | 0 <= k < |init|
      ensures init[k] == CursorWindow(all, CursorBefore(init, k))
      ensures k + 1 < |init| ==> init[k] != []
    {
      assert CursorBefore(init, k) == CursorBefore(pages, k);
    }
  }

  /** With the items loaded being the first `m` of the list, the cursor of
      the last of them starts the next page right after them. */
  lemma CursorAfterPrefix(all: seq<FeedItem>, m: nat)
    requires NewestFirst(all) && 0 < m <= |all|
    ensures CursorStart(all, all[m - 1].id) == m
  {
    var c := all[m - 1].id;
    assert !IdBelow(c)(all[m - 1]);
    forall j | 0 <= j < m
      ensures !IdBelow(c)(all[j])
    {
    }
    if m < |all| {
      assert IdBelow(c)(all[m]);
    }
  }

  /** The items loaded so far are, in order, the newest items of the list:
      none is skipped or loaded twice. */
  lemma {:induction false} LoadedPrefix(all: seq<FeedItem>, pages: seq<seq<FeedItem>>)
    requires NewestFirst(all) && FetchedInOrder(all, pages)
    ensures |Lists.Flatten(pages)| <= |all|
    ensures Lists.Flatten(pages) == all[..|Lists.Flatten(pages)|]
  {
    if pages != [] {
      FetchedInit(all, pages);
      LoadedPrefix(all, pages[..|pages| - 1]);
      LastPage(all, pages);
      NextStart(all, pages);
      WindowExtends(all, CursorBefore(pages, |pages| - 1));
    }
  }

  /** The last page is appended to the pages before it. */
  lemma LastPage(all: seq<FeedItem>, pages: seq<seq<FeedItem>>)
    requires FetchedInOrder(all, pages) && pages != []
    ensures Lists.Flatten(pages)
      == Lists.Flatten(pages[..|pages| - 1]) + CursorWindow(all, CursorBefore(pages, |pages| - 1))
  {
    var n := |pages| - 1;
    assert pages == pages[..n] + [pages[n]];
    Lists.FlattenAppend(pages[..n], pages[n]);
  }

  /** A page that starts at `m` extends the first `m` items. */
  lemma WindowExtends(all: seq<FeedItem>, cursor: int)
    ensures var m := CursorStart(all, cursor);
      var e := m + |CursorWindow(all, cursor)|;
      e <= |all| && all[..m] + CursorWindow(all, cursor) == all[..e]
  {
  }

  /** The last page starts where the pages before it end. */
  lemma NextStart(all: seq<FeedItem>, pages: seq<seq<FeedItem>>)
    requires NewestFirst(all) && pages != []
    requires |pages| > 1 ==> pages[|pages| - 2] != []
    requires var init := pages[..|pages| - 1];
      |Lists.Flatten(init)| <= |all| && Lists.Flatten(init) == all[..|Lists.Flatten(init)|]
    ensures CursorStart(all, CursorBefore(pages, |pages| - 1)) == |Lists.Flatten(pages[..|pages| - 1])|
  {
    var n := |pages| - 1;
    if n > 0 {
      var init := pages[..n];
      var m := |Lists.Flatten(init)|;
      var last := pages[n - 1];
      LastItem(init, last);
      assert all[m - 1] == Lists.Flatten(init)[m - 1];
      CursorAfterPrefix(all, m);
    }
  }

  /** The last item of the pages is the last item of the last page. */
  lemma LastItem(pages: seq<seq<FeedItem>>, last: seq<FeedItem>)
    requires pages != [] && pages[|pages| - 1] == last && last != []
    ensures var f := Lists.Flatten(pages);
      |f| > 0 && f[|f| - 1] == last[|last| - 1]
  {
    var n := |pages| - 1;
    assert pages == pages[..n] + [last];
    Lists.FlattenAppend(pages[..n], last);
  }

  /** Once a page comes back empty, everything has been loaded. */
  lemma LoadedAll(all: seq<FeedItem>, pages: seq<seq<FeedItem>>)
    requires NewestFirst(all) && FetchedInOrder(all, pages) && pages != []
    requires NextPageParam(pages[|pages| - 1]).None?
    ensures Lists.Flatten(pages) == all
  {
    var n := |pages| - 1;
    FetchedInit(all, pages);
    LoadedPrefix(all, pages[..n]);
    NextStart(all, pages);
    LastPage(all, pages);
    EmptyWindow(all, CursorBefore(pages, n));
  }

  /** An empty page means the cursor is past the end of the list. */
  lemma EmptyWindow(all: seq<FeedItem>, cursor: int)
    ensures CursorWindow(all, cursor) == [] ==> CursorStart(all, cursor) == |all|
  {
  }

  /** `items`: the search results in search mode, the loaded pages
      otherwise. */
  function Items(searchMode: bool, searchResults: seq<FeedItem>, pages: Option<seq<seq<FeedItem>>>): (r: seq<FeedItem>)
    ensures searchMode ==> r == searchResults
  {
    if searchMode then searchResults
    else match pages
      case Some(ps) => Lists.Flatten(ps)
      case None => []
  }

  /** Outside search mode the list shows the newest items, in order. */
  lemma ShownAreNewest(all: seq<FeedItem>, pages: seq<seq<FeedItem>>, searchResults: seq<FeedItem>)
    requires NewestFirst(all) && FetchedInOrder(all, pages)
    ensures var r := Items(false, searchResults, Some(pages));
      |r| <= |all| && r == all[..|r|]
  {
    LoadedPrefix(all, pages);
  }

  /** `loadMore` fetches when there is a next page and none is being
      fetched, in search mode too. */
  predicate LoadMoreFetches(pages: seq<seq<FeedItem>>, isFetchingNextPage: bool) {
    pages != [] && NextPageParam(pages[|pages| - 1]).Some? && !isFetchingNextPage
  }

  /** When `loadMore` fetches, the cursor it sends is the id of the last
      item shown, and the page it asks for starts right after the items
      already loaded: loading more neither skips nor repeats an item. */
  lemma LoadMoreContinues(all: seq<FeedItem>, pages: seq<seq<FeedItem>>, isFetchingNextPage: bool)
    requires NewestFirst(all) && FetchedInOrder(all, pages)
    requires LoadMoreFetches(pages, isFetchingNextPage)
    ensures var f := Lists.Flatten(pages);
      && 0 < |f| <= |all|
      && NextPageParam(pages[|pages| - 1]) == Some(f[|f| - 1].id)
      && CursorStart(all, f[|f| - 1].id) == |f|
  {
    var f := Lists.Flatten(pages);
    LastItem(pages, pages[|pages| - 1]);
    LoadedPrefix(all, pages);
    assert all[|f| - 1] == f[|f| - 1];
    CursorAfterPrefix(all, |f|);
  }

  // -------------------------------------------------------------- selection

  function HasId(articleId: string): FeedItem -> bool {
    (it: FeedItem) => Js.IntToString(it.id) == articleId
  }

  /** `selectedArticleFromUrl || selectedFeedArticle`: the first shown item
      whose id is the non-empty `articleId`, else the article selected by
      hand. */
  function CurrentArticle(articleId: Option<string>, items: seq<FeedItem>,
                          selected: Option<FeedItem>): (r: Option<FeedItem>)
    ensures r != selected ==> Present(articleId) && r.Some? && r.value in items
                              && Js.IntToString(r.value.id) == articleId.value
  {
    if Present(articleId) then
      match Lists.FindIndex(items, HasId(articleId.value))
      case Some(i) => Some(items[i])
      case None => selected
    else selected
  }

  /** The `articleId` a mobile selection writes into the URL shows an
      article with that same id. */
  lemma ArticleRoundTrip(it: FeedItem, items: seq<FeedItem>, selected: Option<FeedItem>)
    requires it in items
    ensures var r := CurrentArticle(Some(Js.IntToString(it.id)), items, selected);
      r.Some? && r.value in items && r.value.id == it.id
  {
    var i :| 0 <= i < |items| && items[i] == it;
    assert HasId(Js.IntToString(it.id))(items[i]);
    var r := CurrentArticle(Some(Js.IntToString(it.id)), items, selected);
    Js.IntToStringInjective(r.value.id, it.id);
  }

  /** On the server's list, where ids are unique, it is that very item. */
  lemma ArticleRoundTripNewest(it: FeedItem, all: seq<FeedItem>, pages: seq<seq<FeedItem>>,
                               selected: Option<FeedItem>)
    requires NewestFirst(all) && FetchedInOrder(all, pages)
    requires it in Lists.Flatten(pages)
    ensures CurrentArticle(Some(Js.IntToString(it.id)), Lists.Flatten(pages), selected) == Some(it)
  {
    LoadedPrefix(all, pages);
    var items := Lists.Flatten(pages);
    ArticleRoundTrip(it, items, selected);
    var r := CurrentArticle(Some(Js.IntToString(it.id)), items, selected);
    var i :| 0 <= i < |items| && items[i] == it;
    var j :| 0 <= j < |items| && items[j] == r.value;
    assert items[i] == all[i] && items[j] == all[j];
  }

  /** Without an `articleId`, the article selected by hand is shown. */
  lemma NoArticleId(items: seq<FeedItem>, selected: Option<FeedItem>)
    ensures CurrentArticle(None, items, selected) == selected
    ensures CurrentArticle(Some(""), items, selected) == selected
  {
  }

  /** On a phone, the article is shown instead of the list exactly when
      the URL carries a non-empty `articleId`. */
  predicate ShowArticleOnMobile(isMobile: bool, articleId: Option<string>) {
    isMobile && Present(articleId)
  }

  /** The page's own state: the article selected by hand and the saved
      scroll position. */
  class FeedsPageState {
    var selected: Option<FeedItem>
    var scrollPosition: int

    constructor()
      ensures selected.None? && scrollPosition == 0
    {
      selected := None;
      scrollPosition := 0;
    }

    /** `handleArticleSelection`: the article becomes selected; on a phone,
        with an article, the scroll position is saved and the returned
        search parameters carry its id. */
    method HandleArticleSelection(article: Option<FeedItem>, isMobile: bool, scrollTop: int,
                                  search: seq<(string, string)>)
      returns (navigateTo: Option<seq<(string, string)>>)
      modifies this
      ensures selected == article
      ensures scrollPosition == if isMobile && article.Some? then scrollTop else old(scrollPosition)
      ensures navigateTo == if isMobile && article.Some?
                            then Some(Js.ParamSet(search, "articleId", Js.IntToString(article.value.id)))
                            else None
    {
      selected := article;
      navigateTo := None;
      if isMobile && article.Some? {
        scrollPosition := scrollTop;
        navigateTo := Some(Js.ParamSet(search, "articleId", Js.IntToString(article.value.id)));
      }
    }
  }

  /** Selecting on a phone shows the article; going back
      (`handleBackToList`, which deletes `articleId` from the search
      parameters) shows the list; the other parameters are left as they
      were. */
  lemma MobileNavigation(it: FeedItem, search: seq<(string, string)>, other: string)
    requires other != "articleId"
    ensures var there := Js.ParamSet(search, "articleId", Js.IntToString(it.id));
      && Js.ParamGet(there, "articleId") == Some(Js.IntToString(it.id))
      && ShowArticleOnMobile(true, Js.ParamGet(there, "articleId"))
      && !ShowArticleOnMobile(true, Js.ParamGet(Js.ParamDelete(there, "articleId"), "articleId"))
      && Js.ParamGet(Js.ParamDelete(there, "articleId"), other) == Js.ParamGet(search, other)
  {
    var there := Js.ParamSet(search, "articleId", Js.IntToString(it.id));
    Js.ParamGetSet(search, "articleId", Js.IntToString(it.id), other);
    Js.ParamGetDeleted(there, "articleId", other);
    var s := Js.IntToString(it.id);
    if it.id >= 0 {
      assert Js.IsDigit(s[0]);
    }
  }
}
