/** The Nextcloud News backend: the API's feed-type codes, the query
    parameters of the item list, the grouping of feeds into folders with
    their unread totals, the mapping of API items to view models and the
    choice of an item's thumbnail. Every HTTP response is an input. */
module NewsBackend {
  import opened Wrappers
  import Js
  import Lists
  import opened BackendTypes

  /** Items requested per page. */
  const ItemsPerPage := 20

  /** The prefix of every error the backend throws. */
  const NotOkMessage := "Network response was not ok"

  /** The text of the `TypeError` a browser built on V8 raises when a feed's
      folder is missing from `foldersById` and its `name` is read. */
  const MissingFolderNameError := "TypeError: Cannot read properties of undefined (reading 'name')"

  /** `new Error('Network response was not ok' + error)`: the prefix
      followed by the text of the caught error. */
  function NotOk(cause: string): string {
    NotOkMessage + cause
  }

  /** `String(e)` of an `Error` whose message is `message`. */
  function ErrorText(message: string): string {
    "Error: " + message
  }

  /** The `catch` of `getFolders`: an error thrown inside is wrapped again. */
  function Rethrown<T>(r: Result<T>): Result<T> {
    if r.Err? then Err(NotOk(ErrorText(r.message))) else r
  }

  /** A folder as the API returns it. */
  datatype NNFolder = NNFolder(id: int, name: string)

  /** A feed as the API returns it. */
  datatype NNFeed = NNFeed(
    id: int,
    title: string,
    faviconLink: string,
    folderId: int,
    unreadCount: int)

  /** An item as the API returns it; `pubDate` is in seconds. */
  datatype NNItem = NNItem(
    id: int,
    url: string,
    title: string,
    pubDate: int,
    body: Option<string>,
    enclosureLink: Option<string>,
    mediaThumbnail: Option<string>,
    feedId: int,
    unread: bool,
    starred: bool)

  // ------------------------------------------------------ feed-type codes

  /** `getNextcloudFeedType`: the News API `type` of a query. A query for
      one feed is `0`; otherwise starred items are `2`, a folder `1`, and
      every item `3`. */
  function NextcloudFeedType(q: FeedQuery): string {
    if Present(q.feedId) then "0"
    else if q.feedType == Some(StarredFeeds) then "2"
    else if q.feedType == Some(FolderFeeds) then "1"
    else if q.feedFilter == AllItems || q.feedFilter == UnreadItems then "3"
    else "0"
  }

  /** The `id` parameter: the feed id, else the folder id, else `0`; an
      empty feed id still counts here, as `??` only skips a missing one. */
  function ItemsId(q: FeedQuery): string {
    if q.feedId.Some? then q.feedId.value
    else if q.folderId.Some? then q.folderId.value
    else "0"
  }

  /** The query parameters of `getFeedItems`, in insertion order. */
  function ItemParams(q: FeedQuery, offset: int): seq<(string, string)> {
    [ ("batchSize", Js.IntToString(ItemsPerPage)),
      ("id", ItemsId(q)),
      ("type", NextcloudFeedType(q)),
      ("getRead", if q.feedFilter != UnreadItems then "true" else "false"),
      ("oldestFirst", "false") ]
    + (if offset > 0 then [("offset", Js.IntToString(offset))] else [])
  }

  /** The code names the kind of list: one feed, a folder, the starred
      items or every item, and a query for one feed sends that feed's id. */
  lemma FeedTypeCodes(q: FeedQuery)
    ensures NextcloudFeedType(q) in {"0", "1", "2", "3"}
    ensures NextcloudFeedType(q) == "0" <==> Present(q.feedId)
    ensures NextcloudFeedType(q) == "2" <==> !Present(q.feedId) && q.feedType == Some(StarredFeeds)
    ensures NextcloudFeedType(q) == "1" <==> !Present(q.feedId) && q.feedType == Some(FolderFeeds)
    ensures NextcloudFeedType(q) == "3" <==>
      !Present(q.feedId) && q.feedType != Some(StarredFeeds) && q.feedType != Some(FolderFeeds)
    ensures Present(q.feedId) ==> ItemsId(q) == q.feedId.value
  {
  }

  /** `batchSize` is 20 and `oldestFirst` false; `id` is the feed id, else
      the folder id, else 0; read items are asked for unless the filter is
      UNREAD; `offset` is sent only when positive. */
  lemma ItemParamsContents(q: FeedQuery, offset: int)
    ensures var ps := ItemParams(q, offset);
      && Js.ParamGet(ps, "batchSize") == Some("20")
      && Js.ParamGet(ps, "oldestFirst") == Some("false")
      && Js.ParamGet(ps, "id") == Some(ItemsId(q))
      && Js.ParamGet(ps, "type") == Some(NextcloudFeedType(q))
      && Js.ParamGet(ps, "getRead") == Some(if q.feedFilter == UnreadItems then "false" else "true")
      && Js.ParamGet(ps, "offset") == (if offset > 0 then Some(Js.IntToString(offset)) else None)
  {
    assert Js.IntToString(ItemsPerPage) == "20" by {
      assert Js.NatToString(20) == Js.NatToString(2) + [Js.DigitChar(0)];
    }
    var ps := ItemParams(q, offset);
    var tail := if offset > 0 then [("offset", Js.IntToString(offset))] else [];
    var getRead := if q.feedFilter != UnreadItems then "true" else "false";
    assert Js.ParamGet(tail, "offset") == (if offset > 0 then Some(Js.IntToString(offset)) else None);
    var p4 := [("oldestFirst", "false")] + tail;
    var p3 := [("getRead", getRead)] + p4;
    var p2 := [("type", NextcloudFeedType(q))] + p3;
    var p1 := [("id", ItemsId(q))] + p2;
    assert ps == [("batchSize", "20")] + p1;
    assert Js.ParamGet(p4, "offset") == Js.ParamGet(tail, "offset");
    assert Js.ParamGet(p3, "offset") == Js.ParamGet(p4, "offset");
    assert Js.ParamGet(p3, "oldestFirst") == Some("false");
    assert Js.ParamGet(p2, "offset") == Js.ParamGet(p3, "offset");
    assert Js.ParamGet(p2, "oldestFirst") == Some("false");
    assert Js.ParamGet(p2, "getRead") == Some(getRead);
    assert Js.ParamGet(p1, "offset") == Js.ParamGet(p2, "offset");
    assert Js.ParamGet(p1, "oldestFirst") == Some("false");
    assert Js.ParamGet(p1, "getRead") == Some(getRead);
    assert Js.ParamGet(p1, "type") == Some(NextcloudFeedType(q));
  }

  // -------------------------------------------------------------- feeds

  function ToFeed(f: NNFeed): Feed {
    Feed(Js.IntToString(f.id), f.title, f.unreadCount, f.faviconLink, Js.IntToString(f.folderId))
  }

  /** The id-to-feed dictionary of `_getFeedsMapping`. */
  function FeedsMap(feeds: seq<NNFeed>): map<int, Feed> {
    Lists.Index(feeds, (f: NNFeed) => f.id, ToFeed)
  }

  /** The placeholder folder `getFolders` files under each folder id. */
  function ToFolderStub(f: NNFolder): FeedFolder {
    FeedFolder(Js.IntToString(f.id), f.name, 0, [])
  }

  /** The id-to-folder dictionary of `getFolders`. */
  function FoldersMap(folders: seq<NNFolder>): map<int, FeedFolder> {
    Lists.Index(folders, (f: NNFolder) => f.id, ToFolderStub)
  }

  /** Whether a feed is filed under folder `fid`. */
  function FolderIs(fid: int): NNFeed -> bool {
    (f: NNFeed) => f.folderId == fid
  }

  /** The feeds of one folder, in API order. */
  function InFolder(feeds: seq<NNFeed>, fid: int): seq<NNFeed> {
    Lists.Filter(feeds, FolderIs(fid))
  }

  function ToFeeds(fs: seq<NNFeed>): (r: seq<Feed>)
    ensures |r| == |fs|
  {
    if fs == [] then [] else ToFeeds(fs[..|fs| - 1]) + [ToFeed(fs[|fs| - 1])]
  }

  /** The sum of the feeds' unread counts. */
  function UnreadSum(fs: seq<NNFeed>): int {
    if fs == [] then 0 else UnreadSum(fs[..|fs| - 1]) + fs[|fs| - 1].unreadCount
  }

  /** The group of one folder: its id and name, every feed filed under it,
      and the sum of their unread counts. */
  function Group(folders: map<int, FeedFolder>, feeds: seq<NNFeed>, fid: int): FeedFolder
    requires fid in folders
  {
    FeedFolder(Js.IntToString(fid), folders[fid].name,
      UnreadSum(InFolder(feeds, fid)), ToFeeds(InFolder(feeds, fid)))
  }

  /** Every feed's folder is one of the folders. */
  predicate FoldersKnown(folders: map<int, FeedFolder>, feeds: seq<NNFeed>) {
    forall i :: 0 <= i < |feeds| ==> feeds[i].folderId in folders
  }

  /** The folder ids of the feeds, each once, in order of first appearance. */
  function DistinctFolderIds(feeds: seq<NNFeed>): seq<int> {
    if feeds == [] then []
    else
      var ids := DistinctFolderIds(feeds[..|feeds| - 1]);
      var fid := feeds[|feeds| - 1].folderId;
      if fid in ids then ids else ids + [fid]
  }

  /** A key `Object.values` visits first, in ascending order: a canonical
      array index. */
  predicate IsIndexKey(k: int) {
    0 <= k < 0xFFFF_FFFF
  }

  /** The order in which `Object.values` lists a dictionary whose keys were
      inserted in the order `keys`: the array-index keys ascending, then the
      others in insertion order. */
  function ValuesOrder(keys: seq<int>): seq<int> {
    Lists.SortAsc(Lists.Filter(keys, IsIndexKey))
    + Lists.Filter(keys, (k: int) => !IsIndexKey(k))
  }

  /** What `_addFeedsToFolders` returns: one group per folder id in
      `Object.values` order, or an error when a feed names a folder that is
      not among the folders. */
  function GroupFeeds(folders: map<int, FeedFolder>, feeds: seq<NNFeed>): Result<seq<FeedFolder>> {
    if !FoldersKnown(folders, feeds) then Err(NotOk(MissingFolderNameError))
    else
      KeysKnown(folders, feeds);
      Ok(Groups(folders, feeds, ValuesOrder(DistinctFolderIds(feeds))))
  }

  /** The groups of the folders `ids`, in that order. */
  function Groups(folders: map<int, FeedFolder>, feeds: seq<NNFeed>, ids: seq<int>): (r: seq<FeedFolder>)
    requires forall id :: id in ids ==> id in folders
    ensures |r| == |ids|
    ensures forall j :: 0 <= j < |ids| ==> r[j] == Group(folders, feeds, ids[j])
  {
    if ids == [] then [] else [Group(folders, feeds, ids[0])] + Groups(folders, feeds, ids[1..])
  }

  /** The distinct ids are exactly the folder ids of the feeds, each once. */
  lemma {:induction false} DistinctFolderIdsSpec(feeds: seq<NNFeed>, fid: int)
    ensures fid in DistinctFolderIds(feeds) <==> exists i :: 0 <= i < |feeds| && feeds[i].folderId == fid
    ensures multiset(DistinctFolderIds(feeds))[fid] <= 1
  {
    if feeds != [] {
      var n := |feeds| - 1;
      var init := feeds[..n];
      DistinctFolderIdsSpec(init, fid);
      if fid in DistinctFolderIds(init) {
        var i :| 0 <= i < |init| && init[i].folderId == fid;
        assert feeds[i] == init[i];
      }
      if exists i :: 0 <= i < n && feeds[i].folderId == fid {
        var i :| 0 <= i < n && feeds[i].folderId == fid;
        assert init[i] == feeds[i];
      }
    }
  }

  /** `Object.values` visits every key once. */
  lemma ValuesOrderPermutes(keys: seq<int>)
    ensures multiset(ValuesOrder(keys)) == multiset(keys)
  {
    forall k
      ensures multiset(ValuesOrder(keys))[k] == multiset(keys)[k]
    {
      Lists.FilterCount(keys, IsIndexKey, k);
      Lists.FilterCount(keys, (j: int) => !IsIndexKey(j), k);
    }
  }

  lemma KeysKnown(folders: map<int, FeedFolder>, feeds: seq<NNFeed>)
    requires FoldersKnown(folders, feeds)
    ensures forall id :: id in ValuesOrder(DistinctFolderIds(feeds)) ==> id in folders
  {
    ValuesOrderPermutes(DistinctFolderIds(feeds));
    forall id | id in ValuesOrder(DistinctFolderIds(feeds))
      ensures id in folders
    {
      assert id in multiset(ValuesOrder(DistinctFolderIds(feeds)));
      assert id in DistinctFolderIds(feeds);
      DistinctFolderIdsSpec(feeds, id);
    }
  }

  /** The grouping fails exactly when a feed's folder is unknown; when it
      succeeds there is one group for each folder id among the feeds and
      none for a folder without feeds. */
  lemma GroupFeedsOnePerFolder(folders: map<int, FeedFolder>, feeds: seq<NNFeed>, fid: int)
    ensures GroupFeeds(folders, feeds).Ok? <==> FoldersKnown(folders, feeds)
    ensures GroupFeeds(folders, feeds).Ok? ==>
      multiset(ValuesOrder(DistinctFolderIds(feeds)))[fid]
        == if exists i :: 0 <= i < |feeds| && feeds[i].folderId == fid then 1 else 0
  {
    ValuesOrderPermutes(DistinctFolderIds(feeds));
    DistinctFolderIdsSpec(feeds, fid);
  }

  /** Each feed is filed in the group of its own folder, as often as it
      occurs and in API order, and in no other group. */
  lemma GroupMembers(feeds: seq<NNFeed>, fid: int, f: NNFeed)
    ensures Lists.IsSubsequence(InFolder(feeds, fid), feeds)
    ensures multiset(InFolder(feeds, fid))[f] == if f.folderId == fid then multiset(feeds)[f] else 0
  {
    Lists.FilterIsSubsequence(feeds, FolderIs(fid));
    Lists.FilterCount(feeds, FolderIs(fid), f);
  }

  lemma UnreadSumAppend(fs: seq<NNFeed>, f: NNFeed)
    ensures UnreadSum(fs + [f]) == UnreadSum(fs) + f.unreadCount
  {
    assert (fs + [f])[..|fs|] == fs;
  }

  lemma ToFeedsAppend(fs: seq<NNFeed>, f: NNFeed)
    ensures ToFeeds(fs + [f]) == ToFeeds(fs) + [ToFeed(f)]
  {
    assert (fs + [f])[..|fs|] == fs;
  }

  /** One more feed changes the group of its own folder only: it is
      appended there and its unread count added. */
  lemma GroupAppend(folders: map<int, FeedFolder>, fs: seq<NNFeed>, f: NNFeed, k: int)
    requires k in folders
    ensures var g := Group(folders, fs, k);
      Group(folders, fs + [f], k)
        == if f.folderId == k
           then g.(feeds := g.feeds + [ToFeed(f)], unreadCount := g.unreadCount + f.unreadCount)
           else g
  {
    Lists.FilterAppend(fs, f, FolderIs(k));
    assert FolderIs(k)(f) <==> f.folderId == k;
    if f.folderId == k {
      assert InFolder(fs + [f], k) == InFolder(fs, k) + [f];
      UnreadSumAppend(InFolder(fs, k), f);
      ToFeedsAppend(InFolder(fs, k), f);
    } else {
      assert InFolder(fs + [f], k) == InFolder(fs, k);
    }
  }

  /** The group of a folder no feed has named yet is empty. */
  lemma GroupEmpty(folders: map<int, FeedFolder>, fs: seq<NNFeed>, k: int)
    requires k in folders
    requires k !in DistinctFolderIds(fs)
    ensures Group(folders, fs, k) == FeedFolder(Js.IntToString(k), folders[k].name, 0, [])
  {
    DistinctFolderIdsSpec(fs, k);
    Lists.FilterNone(fs, FolderIs(k));
  }

  /** What `_addFeedsToFolders` holds after the feeds `fs`: their folders
      are all known, `groups` has a key for each of their folder ids,
      inserted in order of first appearance, and each key's group is the
      group of that folder. */
  ghost predicate GroupsSoFar(folders: map<int, FeedFolder>, fs: seq<NNFeed>,
                              groups: map<int, FeedFolder>, order: seq<int>) {
    FoldersKnown(folders, fs) && KeysSoFar(fs, groups, order) && ValuesSoFar(folders, fs, groups)
  }

  ghost predicate KeysSoFar(fs: seq<NNFeed>, groups: map<int, FeedFolder>, order: seq<int>) {
    order == DistinctFolderIds(fs) && (forall fid :: fid in groups <==> fid in order)
  }

  ghost predicate ValuesSoFar(folders: map<int, FeedFolder>, fs: seq<NNFeed>, groups: map<int, FeedFolder>) {
    forall fid :: fid in groups ==> fid in folders && groups[fid] == Group(folders, fs, fid)
  }

  /** The group a feed of folder `fid` is appended to: the one built so
      far, or a fresh empty one named after the folder. */
  function OpenGroup(folders: map<int, FeedFolder>, groups: map<int, FeedFolder>, fid: int): FeedFolder
    requires fid in groups || fid in folders
  {
    if fid in groups then groups[fid] else FeedFolder(Js.IntToString(fid), folders[fid].name, 0, [])
  }

  /** `g` with feed `f` appended and its unread count added. */
  function AddToGroup(g: FeedFolder, f: NNFeed): FeedFolder {
    g.(feeds := g.feeds + [ToFeed(f)], unreadCount := g.unreadCount + f.unreadCount)
  }

  /** One step of the `forEach`: opening the folder's group if it is new,
      then appending the feed, keeps the groups equal to `Group`. */
  lemma GroupsStep(folders: map<int, FeedFolder>, feeds: seq<NNFeed>, i: nat,
                   groups: map<int, FeedFolder>, order: seq<int>)
    requires i < |feeds|
    requires GroupsSoFar(folders, feeds[..i], groups, order)
    requires feeds[i].folderId in folders
    ensures var fid := feeds[i].folderId;
      GroupsSoFar(folders, feeds[..i + 1],
        groups[fid := AddToGroup(OpenGroup(folders, groups, fid), feeds[i])],
        if fid in groups then order else order + [fid])
  {
    assert feeds[..i + 1] == feeds[..i] + [feeds[i]];
    GroupsAppend(folders, feeds[..i], feeds[i], groups, order);
  }

  /** `GroupsStep` for the feeds `fs` followed by `f`. */
  lemma GroupsAppend(folders: map<int, FeedFolder>, fs: seq<NNFeed>, f: NNFeed,
                     groups: map<int, FeedFolder>, order: seq<int>)
    requires GroupsSoFar(folders, fs, groups, order)
    requires f.folderId in folders
    ensures var fid := f.folderId;
      GroupsSoFar(folders, fs + [f],
        groups[fid := AddToGroup(OpenGroup(folders, groups, fid), f)],
        if fid in groups then order else order + [fid])
  {
    KnownAppend(folders, fs, f);
    KeysStep(fs, f, groups, order, AddToGroup(OpenGroup(folders, groups, f.folderId), f));
    ValuesStep(folders, fs, f, groups, order);
  }

  lemma GroupedKnown(folders: map<int, FeedFolder>, fs: seq<NNFeed>, groups: map<int, FeedFolder>, fid: int)
    requires ValuesSoFar(folders, fs, groups)
    requires fid in groups
    ensures fid in folders
  {
  }

  lemma KnownAppend(folders: map<int, FeedFolder>, fs: seq<NNFeed>, f: NNFeed)
    requires FoldersKnown(folders, fs)
    requires f.folderId in folders
    ensures FoldersKnown(folders, fs + [f])
  {
    forall j | 0 <= j < |fs| + 1 ensures (fs + [f])[j].folderId in folders {
      if j < |fs| { assert (fs + [f])[j] == fs[j]; }
    }
  }

  lemma KeysStep(fs: seq<NNFeed>, f: NNFeed, groups: map<int, FeedFolder>, order: seq<int>, g: FeedFolder)
    requires KeysSoFar(fs, groups, order)
    ensures var fid := f.folderId;
      KeysSoFar(fs + [f], groups[fid := g], if fid in groups then order else order + [fid])
  {
    assert (fs + [f])[..|fs|] == fs;
  }

  lemma ValuesStep(folders: map<int, FeedFolder>, fs: seq<NNFeed>, f: NNFeed,
                   groups: map<int, FeedFolder>, order: seq<int>)
    requires KeysSoFar(fs, groups, order) && ValuesSoFar(folders, fs, groups)
    requires f.folderId in folders
    ensures var fid := f.folderId;
      ValuesSoFar(folders, fs + [f], groups[fid := AddToGroup(OpenGroup(folders, groups, fid), f)])
  {
    var fid := f.folderId;
    var groups' := groups[fid := AddToGroup(OpenGroup(folders, groups, fid), f)];
    forall k | k in groups' ensures k in folders && groups'[k] == Group(folders, fs + [f], k) {
      GroupAppend(folders, fs, f, k);
      if k == fid && k !in groups {
        GroupEmpty(folders, fs, k);
      }
    }
  }

  /** A feed whose folder is neither grouped yet nor known fails the
      whole grouping. */
  lemma UnknownFolder(folders: map<int, FeedFolder>, feeds: seq<NNFeed>, i: nat,
                      groups: map<int, FeedFolder>, order: seq<int>)
    requires i < |feeds|
    requires GroupsSoFar(folders, feeds[..i], groups, order)
    requires feeds[i].folderId !in groups && feeds[i].folderId !in folders
    ensures GroupFeeds(folders, feeds) == Err(NotOkMessage + MissingFolderNameError)
  {
  }

  /** Once every feed is filed, `Object.values` of the groups is the
      grouping `GroupFeeds` describes. */
  lemma GroupsDone(folders: map<int, FeedFolder>, feeds: seq<NNFeed>,
                   groups: map<int, FeedFolder>, order: seq<int>)
    requires GroupsSoFar(folders, feeds, groups, order)
    ensures forall j :: 0 <= j < |ValuesOrder(order)| ==> ValuesOrder(order)[j] in groups
    ensures GroupFeeds(folders, feeds) == Ok(ObjectValues(groups, ValuesOrder(order)))
  {
    var keys := ValuesOrder(order);
    ValuesOrderPermutes(order);
    KeysKnown(folders, feeds);
    forall j | 0 <= j < |keys|
      ensures keys[j] in groups && keys[j] in folders && groups[keys[j]] == Group(folders, feeds, keys[j])
    {
      assert keys[j] in multiset(keys);
    }
    ObjectValuesOfGroups(folders, feeds, groups, keys);
  }

  /** `Object.values` of a dictionary whose keys are listed in `keys`. */
  function ObjectValues(groups: map<int, FeedFolder>, keys: seq<int>): seq<FeedFolder>
    requires forall j :: 0 <= j < |keys| ==> keys[j] in groups
  {
    if keys == [] then [] else [groups[keys[0]]] + ObjectValues(groups, keys[1..])
  }

  /** The values of the built groups are the groups of their keys. */
  lemma {:induction false} ObjectValuesOfGroups(folders: map<int, FeedFolder>, feeds: seq<NNFeed>,
                             groups: map<int, FeedFolder>, keys: seq<int>)
    requires forall k :: k in keys ==> k in folders
    requires forall j :: 0 <= j < |keys| ==>
      keys[j] in groups && keys[j] in folders && groups[keys[j]] == Group(folders, feeds, keys[j])
    ensures ObjectValues(groups, keys) == Groups(folders, feeds, keys)
  {
    if keys != [] {
      ObjectValuesOfGroups(folders, feeds, groups, keys[1..]);
    }
  }

  // ----------------------------------------------------------- thumbnails

  /** A character of the captured `src` value: anything but `"` and `>`. */
  predicate AttrChar(c: char) {
    c != '"' && c != '>'
  }

  /** The end of the run of attribute characters starting at `q`. */
  function RunEnd(s: string, q: nat): (e: nat)
    requires q <= |s|
    ensures q <= e <= |s|
    ensures forall k :: q <= k < e ==> AttrChar(s[k])
    ensures e < |s| ==> !AttrChar(s[e])
    decreases |s| - q
  {
    if q == |s| || !AttrChar(s[q]) then q else RunEnd(s, q + 1)
  }

  /** At `p` starts `src="`, then one or more attribute characters and a
      closing `"`: the tail of the pattern `<img[^>]+src="([^">]+)"`. The
      capture is greedy, and what follows it must be `"`, so it can only be
      the whole run. */
  predicate SrcMatch(s: string, p: nat) {
    p + 5 <= |s| && Js.OccursAt(s, "src=\"", p)
    && var e := RunEnd(s, p + 5); e > p + 5 && e < |s| && s[e] == '"'
  }

  /** The pattern matches with `<img` at `i` and `src="` at `p`. */
  predicate ImgMatch(s: string, i: nat, p: nat) {
    Js.OccursAt(s, "<img", i) && i + 5 <= p && SrcMatch(s, p)
    && (forall k :: i + 4 <= k < p ==> s[k] != '>')
  }

  /** The end of the run of characters other than `>` starting at `j`. */
  function GtFreeEnd(s: string, j: nat): (e: nat)
    requires j <= |s|
    ensures j <= e <= |s|
    ensures forall k :: j <= k < e ==> s[k] != '>'
    ensures e < |s| ==> s[e] == '>'
    decreases |s| - j
  {
    if j == |s| || s[j] == '>' then j else GtFreeEnd(s, j + 1)
  }

  /** The greatest `p` in `[lo, hi)` where the tail matches: the greedy
      `[^>]+` tries the longest run first and backs off. */
  function LastSrc(s: string, lo: nat, hi: nat): (r: Option<nat>)
    ensures r.Some? ==> lo <= r.value < hi && SrcMatch(s, r.value)
    ensures r.Some? ==> forall p :: r.value < p < hi ==> !SrcMatch(s, p)
    ensures r.None? ==> forall p :: lo <= p < hi ==> !SrcMatch(s, p)
    decreases hi
  {
    if hi <= lo then None
    else if SrcMatch(s, hi - 1) then Some(hi - 1)
    else LastSrc(s, lo, hi - 1)
  }

  /** The leftmost match at or after `i`, and the greatest `p` for it. */
  function ImgFrom(s: string, i: nat): (r: Option<(nat, nat)>)
    ensures r.Some? ==> i <= r.value.0 && ImgMatch(s, r.value.0, r.value.1)
    decreases |s| - i
  {
    if i + 4 > |s| then None
    else
      var e := GtFreeEnd(s, i + 4);
      if Js.OccursAt(s, "<img", i) && LastSrc(s, i + 5, e).Some? then
        Some((i, LastSrc(s, i + 5, e).value))
      else
        ImgFrom(s, i + 1)
  }

  /** Every match with `<img` at `i` puts `src="` inside the run of
      characters other than `>` that follows the tag name. */
  lemma ImgMatchRange(s: string, i: nat, p: nat)
    requires ImgMatch(s, i, p)
    ensures i + 4 <= |s| && i + 5 <= p < GtFreeEnd(s, i + 4)
  {
    assert s[p] == s[p..p + 5][0] == 's';
  }

  /** The matches with `<img` at `i` are the tails at `p` inside the run
      of characters other than `>` that follows the tag name. */
  lemma MatchesAt(s: string, i: nat)
    requires i + 4 <= |s|
    ensures forall p: nat :: ImgMatch(s, i, p) <==>
      Js.OccursAt(s, "<img", i) && i + 5 <= p < GtFreeEnd(s, i + 4) && SrcMatch(s, p)
  {
    forall p: nat | ImgMatch(s, i, p)
      ensures p < GtFreeEnd(s, i + 4)
    {
      ImgMatchRange(s, i, p);
    }
  }

  /** No match starts in `[lo, hi)`. */
  ghost predicate NoMatchBetween(s: string, lo: nat, hi: nat) {
    forall j: nat, p: nat :: lo <= j < hi ==> !ImgMatch(s, j, p)
  }

  /** No match with `<img` at `i` has its `src="` after `q`. */
  ghost predicate NoLaterSrc(s: string, i: nat, q: nat) {
    forall p: nat :: q < p ==> !ImgMatch(s, i, p)
  }

  /** The search finds the leftmost `<img` with a match, and for it the
      greatest `p`, as the regular expression's greedy backtracking does;
      and it finds nothing exactly when nothing matches. */
  lemma {:induction false} ImgFromSpec(s: string, i: nat)
    ensures match ImgFrom(s, i)
      case Some((j, q)) => NoMatchBetween(s, i, j) && NoLaterSrc(s, j, q)
      case None => NoMatchBetween(s, i, |s|)
    decreases |s| - i
  {
    if i + 4 > |s| {
      NoMatchNearEnd(s, i);
    } else if Js.OccursAt(s, "<img", i) && LastSrc(s, i + 5, GtFreeEnd(s, i + 4)).Some? {
      GreatestAt(s, i);
    } else {
      ImgFromSpec(s, i + 1);
      NoMatchAt(s, i);
      match ImgFrom(s, i + 1)
      case Some((j, q)) => NoMatchJoin(s, i, j);
      case None => NoMatchJoin(s, i, |s|);
    }
  }

  lemma NoMatchJoin(s: string, i: nat, hi: nat)
    requires NoMatchBetween(s, i + 1, hi)
    requires forall p: nat :: !ImgMatch(s, i, p)
    ensures NoMatchBetween(s, i, hi)
  {
  }

  /** Nothing matches at or after `|s|`. */
  lemma NoMatchAfterEnd(s: string, j: nat, p: nat)
    requires |s| <= j
    ensures !ImgMatch(s, j, p)
  {
  }

  lemma NoMatchNearEnd(s: string, i: nat)
    requires i + 4 > |s|
    ensures ImgFrom(s, i) == None
    ensures NoMatchBetween(s, i, |s|)
  {
  }

  lemma GreatestAt(s: string, i: nat)
    requires i + 4 <= |s|
    requires Js.OccursAt(s, "<img", i) && LastSrc(s, i + 5, GtFreeEnd(s, i + 4)).Some?
    ensures ImgFrom(s, i) == Some((i, LastSrc(s, i + 5, GtFreeEnd(s, i + 4)).value))
    ensures NoMatchBetween(s, i, i)
    ensures NoLaterSrc(s, i, LastSrc(s, i + 5, GtFreeEnd(s, i + 4)).value)
  {
    MatchesAt(s, i);
  }

  lemma NoMatchAt(s: string, i: nat)
    requires i + 4 <= |s|
    requires !(Js.OccursAt(s, "<img", i) && LastSrc(s, i + 5, GtFreeEnd(s, i + 4)).Some?)
    ensures ImgFrom(s, i) == ImgFrom(s, i + 1)
    ensures forall p: nat :: !ImgMatch(s, i, p)
  {
    MatchesAt(s, i);
  }

  /** The first capture of `/<img[^>]+src="([^">]+)"/g.exec(body)`. */
  function FirstImgSrc(body: string): Option<string> {
    match ImgFrom(body, 0)
    case None => None
    case Some((_, p)) =>
      assert SrcMatch(body, p);
      Some(body[p + 5..RunEnd(body, p + 5)])
  }

  /** `getItemImageURL`: the enclosure link, else the media thumbnail, else
      the first image of the body, else the empty string. */
  function ItemImageURL(item: NNItem): string {
    var image := item.enclosureLink.GetOr("");
    if image != "" then image
    else
      var thumb := item.mediaThumbnail.GetOr("");
      if thumb == "" && item.body.Some? then
        match FirstImgSrc(item.body.value)
        case Some(src) => src
        case None => thumb
      else thumb
  }

  /** The thumbnail follows the stated precedence: a non-empty enclosure
      link, else a non-empty media thumbnail, else the first image of the
      body, else the empty string. */
  lemma ItemImageURLSpec(item: NNItem)
    ensures Present(item.enclosureLink) ==> ItemImageURL(item) == item.enclosureLink.value
    ensures !Present(item.enclosureLink) && Present(item.mediaThumbnail) ==>
      ItemImageURL(item) == item.mediaThumbnail.value
    ensures !Present(item.enclosureLink) && !Present(item.mediaThumbnail) ==>
      if item.body.Some? && FirstImgSrc(item.body.value).Some?
      then ItemImageURL(item) == FirstImgSrc(item.body.value).value
      else ItemImageURL(item) == ""
  {
  }

  /** The body yields no image exactly when the pattern matches nowhere. */
  lemma FirstImgSrcNone(s: string)
    ensures FirstImgSrc(s).None? <==> forall i: nat, p: nat :: !ImgMatch(s, i, p)
  {
    ImgFromSpec(s, 0);
    forall j: nat, p: nat | |s| <= j
      ensures !ImgMatch(s, j, p)
    {
      NoMatchAfterEnd(s, j, p);
    }
  }

  /** An image found in the body is the quoted, non-empty `src` of the
      leftmost `<img` tag that has one before its closing `>`, and of the
      last such `src` in that tag. */
  lemma FirstImgSrcSome(s: string)
    requires FirstImgSrc(s).Some?
    ensures exists i: nat, p: nat ::
      && ImgMatch(s, i, p)
      && NoMatchBetween(s, 0, i)
      && NoLaterSrc(s, i, p)
      && FirstImgSrc(s).value == s[p + 5..RunEnd(s, p + 5)]
    ensures var v := FirstImgSrc(s).value;
      v != "" && '"' !in v && '>' !in v
  {
    ImgFromSpec(s, 0);
    var (i, p) := ImgFrom(s, 0).value;
    assert ImgMatch(s, i, p);
    var v := s[p + 5..RunEnd(s, p + 5)];
    assert forall k :: 0 <= k < |v| ==> AttrChar(v[k]);
  }

  // --------------------------------------------------------------- items

  /** The item mapping of `getFeedItems` and `searchItems`. */
  function MapItem(item: NNItem, feeds: map<int, Feed>): FeedItem {
    FeedItem(
      item.id,
      if item.feedId in feeds then Some(feeds[item.feedId]) else None,
      item.title,
      item.url,
      item.pubDate * 1000,
      !item.unread,
      item.starred,
      item.body,
      ItemImageURL(item))
  }

  /** What `getFeedItems` returns for the API's answers `feeds` and `raw`. */
  function GetFeedItems(raw: seq<NNItem>, feeds: seq<NNFeed>): (r: seq<FeedItem>)
    ensures |r| == |raw|
  {
    seq(|raw|, i requires 0 <= i < |raw| => MapItem(raw[i], FeedsMap(feeds)))
  }

  /** A mapped item is read exactly when the API calls it not unread, is
      dated in milliseconds, and has a feed exactly when the API lists a
      feed with its feed id; with one such feed, it is that feed. */
  lemma GetFeedItemsSpec(raw: seq<NNItem>, feeds: seq<NNFeed>, i: int)
    requires 0 <= i < |raw|
    ensures var m := GetFeedItems(raw, feeds)[i];
      && m.id == raw[i].id
      && (m.read <==> !raw[i].unread)
      && m.pubDate == raw[i].pubDate * 1000
      && (m.feed.Some? <==> exists k :: 0 <= k < |feeds| && feeds[k].id == raw[i].feedId)
    ensures forall k ::
      (0 <= k < |feeds| && feeds[k].id == raw[i].feedId
       && (forall j :: k < j < |feeds| ==> feeds[j].id != feeds[k].id))
      ==> GetFeedItems(raw, feeds)[i].feed == Some(ToFeed(feeds[k]))
  {
    Lists.IndexKeys(feeds, (f: NNFeed) => f.id, ToFeed, raw[i].feedId);
    forall k | 0 <= k < |feeds| && feeds[k].id == raw[i].feedId
      && (forall j :: k < j < |feeds| ==> feeds[j].id != feeds[k].id)
      ensures GetFeedItems(raw, feeds)[i].feed == Some(ToFeed(feeds[k]))
    {
      Lists.IndexLastWins(feeds, (f: NNFeed) => f.id, ToFeed, k);
    }
  }

  // ------------------------------------------------------ the backend

  class NewsBackend {
    var url: string
    var login: string
    var password: string

    /** Reads the credentials saved at sign-in. */
    constructor(storage: map<string, string>)
      ensures url == (if "backend-url" in storage then storage["backend-url"] else "")
      ensures login == (if "backend-login" in storage then storage["backend-login"] else "")
      ensures password == (if "backend-password" in storage then storage["backend-password"] else "")
    {
      url := if "backend-url" in storage then storage["backend-url"] else "";
      login := if "backend-login" in storage then storage["backend-login"] else "";
      password := if "backend-password" in storage then storage["backend-password"] else "";
    }

    /** The `forEach` of `getFolders` that files a placeholder per folder. */
    method FoldersById(folders: seq<NNFolder>) returns (m: map<int, FeedFolder>)
      ensures m == FoldersMap(folders)
    {
      m := map[];
      var i := 0;
      while i < |folders|
        invariant 0 <= i <= |folders|
        invariant m == FoldersMap(folders[..i])
      {
        assert folders[..i + 1][..i] == folders[..i];
        m := m[folders[i].id := ToFolderStub(folders[i])];
        i := i + 1;
      }
      assert folders[..i] == folders;
    }

    /** `_getFeedsMapping`. */
    method FeedsMapping(feeds: seq<NNFeed>) returns (m: map<int, Feed>)
      ensures m == FeedsMap(feeds)
    {
      m := map[];
      var i := 0;
      while i < |feeds|
        invariant 0 <= i <= |feeds|
        invariant m == FeedsMap(feeds[..i])
      {
        assert feeds[..i + 1][..i] == feeds[..i];
        m := m[feeds[i].id := ToFeed(feeds[i])];
        i := i + 1;
      }
      assert feeds[..i] == feeds;
    }

    /** The `forEach` callback of `_addFeedsToFolders`: opens the group of
        the feed's folder on first sight, then appends the feed and adds its
        unread count. It fails (`ok` false) when the folder is neither
        grouped yet nor among the folders, where the source's lookup of the
        folder name throws. */
    method FileFeed(foldersById: map<int, FeedFolder>, groups: map<int, FeedFolder>, order: seq<int>, feed: NNFeed)
      returns (ok: bool, groups': map<int, FeedFolder>, order': seq<int>)
      ensures ok <==> feed.folderId in groups || feed.folderId in foldersById
      ensures ok ==> var fid := feed.folderId;
        && groups' == groups[fid := AddToGroup(OpenGroup(foldersById, groups, fid), feed)]
        && order' == if fid in groups then order else order + [fid]
    {
      var fid := feed.folderId;
      var g: FeedFolder;
      order' := order;
      if fid in groups {
        g := groups[fid];
      } else {
        if fid !in foldersById {
          return false, groups, order;
        }
        g := FeedFolder(Js.IntToString(fid), foldersById[fid].name, 0, []);
        order' := order + [fid];
      }
      groups' := groups[fid := g.(feeds := g.feeds + [ToFeed(feed)], unreadCount := g.unreadCount + feed.unreadCount)];
      ok := true;
    }

    /** `_addFeedsToFolders`: every feed is filed by `FileFeed`, and the
        groups come out in `Object.values` order. A feed of an unknown
        folder makes the call fail. */
    method AddFeedsToFolders(foldersById: map<int, FeedFolder>, feeds: seq<NNFeed>)
      returns (r: Result<seq<FeedFolder>>)
      ensures r == GroupFeeds(foldersById, feeds)
    {
      var groups: map<int, FeedFolder> := map[];
      var order: seq<int> := [];
      var i := 0;
      while i < |feeds|
        invariant 0 <= i <= |feeds|
        invariant GroupsSoFar(foldersById, feeds[..i], groups, order)
      {
        var ok, groups', order' := FileFeed(foldersById, groups, order, feeds[i]);
        if !ok {
          UnknownFolder(foldersById, feeds, i, groups, order);
          return Err(NotOk(MissingFolderNameError));
        }
        if feeds[i].folderId in groups {
          GroupedKnown(foldersById, feeds[..i], groups, feeds[i].folderId);
        }
        GroupsStep(foldersById, feeds, i, groups, order);
        groups, order := groups', order';
        i := i + 1;
      }
      assert feeds[..i] == feeds;
      GroupsDone(foldersById, feeds, groups, order);
      r := Ok(ObjectValues(groups, ValuesOrder(order)));
    }

    /** `getFolders`: the folders, then the feeds grouped under them. */
    method GetFolders(folders: seq<NNFolder>, feeds: seq<NNFeed>) returns (r: Result<seq<FeedFolder>>)
      ensures r == Rethrown(GroupFeeds(FoldersMap(folders), feeds))
    {
      var byId := FoldersById(folders);
      var grouped := AddFeedsToFolders(byId, feeds);
      if grouped.Err? {
        return Err(NotOk(ErrorText(grouped.message)));
      }
      r := grouped;
    }

    /** The URL `getFeedItems` requests. */
    method ItemsRequestUrl(q: FeedQuery, offset: int) returns (u: string)
      ensures u == url + "/index.php/apps/news/api/v1-3/items?" + Js.ParamsString(ItemParams(q, offset))
    {
      var params := [
        ("batchSize", Js.IntToString(ItemsPerPage)),
        ("id", ItemsId(q)),
        ("type", NextcloudFeedType(q)),
        ("getRead", if q.feedFilter != UnreadItems then "true" else "false"),
        ("oldestFirst", "false") ];
      if offset > 0 {
        params := params + [("offset", Js.IntToString(offset))];
      }
      assert params == ItemParams(q, offset);
      u := url + "/index.php/apps/news/api/v1-3/items?" + Js.ParamsString(params);
    }
  }

  /** `getFolders` fails exactly when a feed names an unknown folder, and
      then with the prefix, the text of the inner error, which repeats the
      prefix, and the `TypeError`; otherwise it returns the grouping. */
  lemma GetFoldersOutcome(folders: seq<NNFolder>, feeds: seq<NNFeed>)
    ensures var r := Rethrown(GroupFeeds(FoldersMap(folders), feeds));
      && (r.Err? <==> !FoldersKnown(FoldersMap(folders), feeds))
      && (r.Err? ==> r.message == NotOkMessage + "Error: " + NotOkMessage + MissingFolderNameError)
      && (r.Ok? ==> r == GroupFeeds(FoldersMap(folders), feeds))
  {
  }

  /** A feed whose folder is known and whose folder is the only one with
      its id files into a group named after that folder. */
  lemma GroupNamedAfterFolder(folders: seq<NNFolder>, feeds: seq<NNFeed>, k: int)
    requires 0 <= k < |folders|
    requires forall j :: k < j < |folders| ==> folders[j].id != folders[k].id
    ensures folders[k].id in FoldersMap(folders)
    ensures Group(FoldersMap(folders), feeds, folders[k].id).name == folders[k].name
    ensures Group(FoldersMap(folders), feeds, folders[k].id).id == Js.IntToString(folders[k].id)
  {
    Lists.IndexLastWins(folders, (f: NNFolder) => f.id, ToFolderStub, k);
  }
}
