/** The task page: how the route sets the shared task query, how the list
    is paged in twenty at a time, which tasks are shown, and which task is
    selected from the `taskId` search parameter. */
module TasksPage {
  import opened Wrappers
  import opened BackendTypes
  import Js
  import Lists
  import QueryProviders
  import AppSidebar
  import TodoBackend

  // ------------------------------------------------------------------ route

  const ProjectPrefix: string := "/project/"

  /** The characters `.` matches: everything but a line terminator. */
  predicate LineChar(c: char) {
    c != '\n' && c != '\r' && c != '\U{2028}' && c != '\U{2029}'
  }

  /** `/\/project\/(.+)/` can match at `i`: the prefix is there and at
      least one character `.` accepts follows it. */
  predicate ProjectMatchAt(path: string, i: int) {
    Js.OccursAt(path, ProjectPrefix, i) && i + 9 < |path| && LineChar(path[i + 9])
  }

  /** The end of the run of non-terminator characters that starts at `j`:
      where the greedy `.+` stops. */
  function LineEnd(s: string, j: nat): (r: nat)
    requires j <= |s|
    ensures j <= r <= |s|
    ensures forall k :: j <= k < r ==> LineChar(s[k])
    ensures r == |s| || !LineChar(s[r])
    decreases |s| - j
  {
    if j == |s| || !LineChar(s[j]) then j else LineEnd(s, j + 1)
  }

  function ProjectMatchFrom(path: string, i: nat): Option<string>
    requires i <= |path|
    decreases |path| - i
  {
    if i + 10 > |path| then None
    else if ProjectMatchAt(path, i) then Some(path[i + 9..LineEnd(path, i + 9)])
    else ProjectMatchFrom(path, i + 1)
  }

  /** The first capture group of `pathname.match(/\/project\/(.+)/)`. */
  function ProjectMatch(path: string): Option<string> {
    ProjectMatchFrom(path, 0)
  }

  lemma {:induction false} ProjectMatchFromSpec(path: string, i: nat)
    requires i <= |path|
    requires forall j :: 0 <= j < i ==> !ProjectMatchAt(path, j)
    ensures ProjectMatchFrom(path, i).None? <==> forall j :: !ProjectMatchAt(path, j)
    ensures ProjectMatchFrom(path, i).Some? ==>
      exists j :: ProjectMatchAt(path, j) && (forall k :: 0 <= k < j ==> !ProjectMatchAt(path, k))
               && ProjectMatchFrom(path, i).value == path[j + 9..LineEnd(path, j + 9)]
    decreases |path| - i
  {
    if i + 10 > |path| {
      forall j
        ensures !ProjectMatchAt(path, j)
      {
        if j >= i {
          assert !(j + 9 < |path| && j + 10 <= |path|);
        }
      }
    } else if ProjectMatchAt(path, i) {
    } else {
      ProjectMatchFromSpec(path, i + 1);
    }
  }

  /** The match is the leftmost `/project/` followed by a character, and
      the capture runs from there to the end of the line. */
  lemma ProjectMatchSpec(path: string)
    ensures ProjectMatch(path).None? <==> forall j :: !ProjectMatchAt(path, j)
    ensures ProjectMatch(path).Some? ==>
      exists j :: ProjectMatchAt(path, j) && (forall k :: 0 <= k < j ==> !ProjectMatchAt(path, k))
               && ProjectMatch(path).value == path[j + 9..LineEnd(path, j + 9)]
  {
    ProjectMatchFromSpec(path, 0);
  }

  /** The capture is never empty and holds no line terminator. */
  lemma ProjectMatchNonEmpty(path: string)
    requires ProjectMatch(path).Some?
    ensures ProjectMatch(path).value != []
    ensures forall k :: 0 <= k < |ProjectMatch(path).value| ==> LineChar(ProjectMatch(path).value[k])
  {
    ProjectMatchSpec(path);
  }

  /** The link of a project in the sidebar, `/project/<id>`, gives its id
      back. */
  lemma ProjectRouteRoundTrip(id: string)
    requires id != []
    requires forall k :: 0 <= k < |id| ==> LineChar(id[k])
    ensures ProjectMatch(ProjectPrefix + id) == Some(id)
  {
    var path := ProjectPrefix + id;
    assert ProjectMatchAt(path, 0);
    assert forall k :: 9 <= k < |path| ==> path[k] == id[k - 9];
    assert forall k :: 9 <= k < |path| ==> LineChar(path[k]);
    assert path[9..LineEnd(path, 9)] == id;
  }

  /** The query the route effect sets: on a project route the project's
      tasks with the current filter, anywhere else every task with the
      current filter. */
  function RouteQuery(q: TaskQuery, path: string): TaskQuery {
    match ProjectMatch(path)
    case Some(id) => TaskQuery(Some(ProjectTasks), q.taskFilter, Some(id))
    case None => TaskQuery(None, q.taskFilter, None)
  }

  /** The route effect keeps the filter, and the project and the type
      follow the path alone: applying it twice is applying it once. */
  lemma RouteQuerySpec(q: TaskQuery, path: string)
    ensures RouteQuery(q, path).taskFilter == q.taskFilter
    ensures RouteQuery(q, path).projectId == ProjectMatch(path)
    ensures RouteQuery(q, path).taskType.Some? <==> ProjectMatch(path).Some?
    ensures RouteQuery(RouteQuery(q, path), path) == RouteQuery(q, path)
  {
  }

  /** The effect that runs when the path changes. */
  method OnPathChange(state: QueryProviders.TaskQueryState, path: string)
    modifies state
    ensures state.query == RouteQuery(old(state.query), path)
  {
    var m := ProjectMatch(path);
    if m.Some? {
      state.query := TaskQuery(Some(ProjectTasks), state.query.taskFilter, Some(m.value));
    } else {
      state.query := TaskQuery(None, state.query.taskFilter, None);
    }
  }

  /** Pressing "Completed" on a project page navigates to `/`, and the
      route effect then drops the completed type: the completed filter
      stays, but no filter button is highlighted any more. */
  lemma CompletedFromProjectPage(q: TaskQuery, id: string)
    requires id != []
    requires forall k :: 0 <= k < |id| ==> LineChar(id[k])
    ensures var pressed := AppSidebar.ToggleQuery(RouteQuery(q, ProjectPrefix + id), false, None, Some(CompletedTasks));
      var home := RouteQuery(pressed, "/");
      && pressed.taskType == Some(CompletedTasks)
      && home == TaskQuery(None, CompletedFilter, None)
      && !AppSidebar.AllLit(home, false) && !AppSidebar.PendingLit(home, false)
      && !AppSidebar.CompletedLit(home, false)
  {
    ProjectRouteRoundTrip(id);
    assert !ProjectMatchAt("/", 0);
  }

  // ----------------------------------------------------------------- paging

  const PageSize: nat := 20

  /** `getNextPageParam`: after a full page, the offset of the next one is
      the number of tasks loaded so far; after a short page there is none. */
  function NextPageParam(lastPage: seq<Task>, allPages: seq<seq<Task>>): Option<nat> {
    if |lastPage| == PageSize then Some(|Lists.Flatten(allPages)|) else None
  }

  /** What the server answers at an offset: up to twenty tasks of its list
      for the query's project, from the offset on. The request carries no
      status. */
  function Window(server: seq<Task>, offset: nat): (r: seq<Task>)
    requires offset <= |server|
    ensures |r| <= PageSize
  {
    server[offset..if offset + PageSize <= |server| then offset + PageSize else |server|]
  }

  /** The page `getTasks` returns at an offset: the server's window with the
      status filter applied in the browser. */
  function Page(server: seq<Task>, f: TaskFilter, offset: nat): (r: seq<Task>)
    requires offset <= |server|
    ensures |r| <= |Window(server, offset)|
  {
    TodoBackend.FilterTasksLength(Window(server, offset), f);
    TodoBackend.FilterTasks(Window(server, offset), f)
  }

  /** The pages were fetched in order: each at the number of tasks loaded
      before it (0 for the first), and each after the first only once the
      page before it came back full. */
  ghost predicate FetchedInOrder(server: seq<Task>, f: TaskFilter, pages: seq<seq<Task>>)
    decreases |pages|
  {
    pages == [] ||
    var init := pages[..|pages| - 1];
    && FetchedInOrder(server, f, init)
    && (init != [] ==> |init[|init| - 1]| == PageSize)
    && |Lists.Flatten(init)| <= |server|
    && pages[|pages| - 1] == Page(server, f, |Lists.Flatten(init)|)
  }

  /** The first page is fetched at offset 0 and each next one at the offset
      `NextPageParam` gives. */
  lemma FetchNext(server: seq<Task>, f: TaskFilter, pages: seq<seq<Task>>)
    requires FetchedInOrder(server, f, pages) && pages != []
    requires NextPageParam(pages[|pages| - 1], pages).Some?
    ensures var o := NextPageParam(pages[|pages| - 1], pages).value;
      o <= |server| && FetchedInOrder(server, f, pages + [Page(server, f, o)])
  {
    var o := NextPageParam(pages[|pages| - 1], pages).value;
    FullPrefix(server, f, pages);
    var p' := pages + [Page(server, f, o)];
    assert p'[..|pages|] == pages;
  }

  /** Full pages lost nothing to the filter: while every page is full,
      the pages are the first tasks of the server's list, twenty per page,
      and all of them pass the filter. */
  lemma {:induction false} FullPrefix(server: seq<Task>, f: TaskFilter, pages: seq<seq<Task>>)
    requires FetchedInOrder(server, f, pages)
    requires pages != [] ==> |pages[|pages| - 1]| == PageSize
    ensures var o := |Lists.Flatten(pages)|;
      o == PageSize * |pages| && o <= |server| && Lists.Flatten(pages) == server[..o]
      && TodoBackend.FilterTasks(server[..o], f) == server[..o]
  {
    if pages != [] {
      var n := |pages| - 1;
      FullPrefix(server, f, pages[..n]);
      LastPage(server, f, pages);
      FullExtend(server, f, |Lists.Flatten(pages[..n])|);
    }
  }

  /** A full page after tasks that all pass the filter is the next twenty
      tasks of the server's list, all passing the filter too. */
  lemma FullExtend(server: seq<Task>, f: TaskFilter, o: nat)
    requires o <= |server| && TodoBackend.FilterTasks(server[..o], f) == server[..o]
    requires |Page(server, f, o)| == PageSize
    ensures o + PageSize <= |server|
    ensures server[..o] + Page(server, f, o) == server[..o + PageSize]
    ensures TodoBackend.FilterTasks(server[..o + PageSize], f) == server[..o + PageSize]
  {
    var w := Window(server, o);
    TodoBackend.FilterTasksLength(w, f);
    assert server[..o + PageSize] == server[..o] + w;
    TodoBackend.FilterTasksConcat(server[..o], w, f);
  }

  /** The last page is appended to the pages before it. */
  lemma LastPage(server: seq<Task>, f: TaskFilter, pages: seq<seq<Task>>)
    requires FetchedInOrder(server, f, pages) && pages != []
    ensures var o := |Lists.Flatten(pages[..|pages| - 1])|;
      o <= |server| && Lists.Flatten(pages) == Lists.Flatten(pages[..|pages| - 1]) + Page(server, f, o)
  {
    var n := |pages| - 1;
    assert pages == pages[..n] + [pages[n]];
    Lists.FlattenAppend(pages[..n], pages[n]);
  }

  /** The pages before the last are full. */
  lemma InitFull(server: seq<Task>, f: TaskFilter, pages: seq<seq<Task>>)
    requires FetchedInOrder(server, f, pages) && pages != []
    ensures var o := |Lists.Flatten(pages[..|pages| - 1])|;
      o <= |server| && Lists.Flatten(pages[..|pages| - 1]) == server[..o]
      && TodoBackend.FilterTasks(server[..o], f) == server[..o]
  {
    var n := |pages| - 1;
    FullPrefix(server, f, pages[..n]);
  }

  /** After tasks that all pass the filter, the filtered window continues
      the filtered list. */
  lemma FilterExtend(server: seq<Task>, f: TaskFilter, o: nat)
    requires o <= |server| && TodoBackend.FilterTasks(server[..o], f) == server[..o]
    ensures var e := o + |Window(server, o)|;
      e <= |server| && server[..o] + Page(server, f, o) == TodoBackend.FilterTasks(server[..e], f)
  {
    var w := Window(server, o);
    assert server[..o + |w|] == server[..o] + w;
    TodoBackend.FilterTasksConcat(server[..o], w, f);
  }

  /** The pages loaded so far are the whole server list up to some task,
      filtered: the full pages kept everything, and the last one is its
      window filtered. */
  lemma LoadedUpTo(server: seq<Task>, f: TaskFilter, pages: seq<seq<Task>>) returns (e: nat)
    requires FetchedInOrder(server, f, pages)
    ensures e <= |server| && Lists.Flatten(pages) == TodoBackend.FilterTasks(server[..e], f)
  {
    if pages == [] {
      e := 0;
    } else {
      var o := |Lists.Flatten(pages[..|pages| - 1])|;
      InitFull(server, f, pages);
      LastPage(server, f, pages);
      FilterExtend(server, f, o);
      e := o + |Window(server, o)|;
    }
  }

  /** The pages loaded so far are, in order, the first tasks of the
      filtered list: no task is skipped or loaded twice. */
  lemma LoadedPrefix(server: seq<Task>, f: TaskFilter, pages: seq<seq<Task>>)
    requires FetchedInOrder(server, f, pages)
    ensures var all := TodoBackend.FilterTasks(server, f);
      |Lists.Flatten(pages)| <= |all| && Lists.Flatten(pages) == all[..|Lists.Flatten(pages)|]
  {
    var e := LoadedUpTo(server, f, pages);
    assert server == server[..e] + server[e..];
    TodoBackend.FilterTasksConcat(server[..e], server[e..], f);
  }

  /** Without a status filter, once the last page comes back short,
      everything has been loaded. */
  lemma LoadedAll(server: seq<Task>, pages: seq<seq<Task>>)
    requires FetchedInOrder(server, AllFilter, pages) && pages != []
    requires NextPageParam(pages[|pages| - 1], pages).None?
    ensures Lists.Flatten(pages) == server
  {
    var o := |Lists.Flatten(pages[..|pages| - 1])|;
    InitFull(server, AllFilter, pages);
    LastPage(server, AllFilter, pages);
    ShortWindow(server, o);
  }

  /** A short window reaches the end of the server's list. */
  lemma ShortWindow(server: seq<Task>, o: nat)
    requires o <= |server|
    ensures |Window(server, o)| < PageSize ==> server[..o] + Window(server, o) == server
  {
    if |Window(server, o)| < PageSize {
      assert Window(server, o) == server[o..];
    }
  }

  /** As written, a status filter stops the paging early: with a completed
      task ahead of twenty pending ones, the first page keeps nineteen, so
      no further page is asked for and the last pending task is never
      loaded. */
  lemma EarlyStopAsWritten(done: Task, pending: seq<Task>)
    requires done.completed
    requires |pending| == PageSize
    requires forall i :: 0 <= i < |pending| ==> !pending[i].completed
    ensures var server := [done] + pending;
      var pages := [Page(server, PendingFilter, 0)];
      && FetchedInOrder(server, PendingFilter, pages)
      && NextPageParam(pages[0], pages).None?
      && Lists.Flatten(pages) == pending[..PageSize - 1]
      && TodoBackend.FilterTasks(server, PendingFilter) == pending
  {
    var server := [done] + pending;
    var keep := (t: Task) => !t.completed;
    var w := Window(server, 0);
    assert w == [done] + pending[..PageSize - 1];
    assert w[1..] == pending[..PageSize - 1];
    Lists.FilterAll(pending[..PageSize - 1], keep);
    assert server[1..] == pending;
    Lists.FilterAll(pending, keep);
    var pages := [Page(server, PendingFilter, 0)];
    assert pages[..0] == [];
    assert Lists.Flatten(pages) == pages[0] + Lists.Flatten(pages[1..]);
  }

  /** With the status sent to the server, so that each page is a window of
      the filtered list, a short last page does mean everything is loaded:
      every task of the status is shown. */
  lemma FilteredOnServer(server: seq<Task>, f: TaskFilter, pages: seq<seq<Task>>)
    requires FetchedInOrder(TodoBackend.FilterTasks(server, f), AllFilter, pages) && pages != []
    requires NextPageParam(pages[|pages| - 1], pages).None?
    ensures Lists.Flatten(pages) == TodoBackend.FilterTasks(server, f)
    ensures forall t :: t in server && TodoBackend.Keeps(f, t) ==> t in Lists.Flatten(pages)
  {
    LoadedAll(TodoBackend.FilterTasks(server, f), pages);
    forall t | t in server && TodoBackend.Keeps(f, t)
      ensures t in Lists.Flatten(pages)
    {
      TodoBackend.FilterTasksSpec(server, f, t);
    }
  }

  /** `tasksToDisplay`: the search results in search mode (none when there
      are no results yet), the loaded pages otherwise. */
  function TasksToDisplay(searchMode: bool, searchResults: Option<seq<Task>>,
                          pages: Option<seq<seq<Task>>>): (r: seq<Task>)
    ensures searchMode ==> r == searchResults.GetOr([])
  {
    if searchMode then searchResults.GetOr([])
    else match pages
      case Some(ps) => Lists.Flatten(ps)
      case None => []
  }

  /** Outside search mode the list shows the first tasks of the query's
      list with the status filter, in the backend's order. */
  lemma DisplayedIsPrefix(server: seq<Task>, f: TaskFilter, pages: seq<seq<Task>>)
    requires FetchedInOrder(server, f, pages)
    ensures var r := TasksToDisplay(false, None, Some(pages));
      var all := TodoBackend.FilterTasks(server, f);
      |r| <= |all| && r == all[..|r|]
  {
    LoadedPrefix(server, f, pages);
  }

  /** `onScrollEnd` fetches the next page only outside search mode, when
      there is one, and when none is being fetched. */
  predicate ScrollEndFetches(searchMode: bool, pages: seq<seq<Task>>, isFetchingNextPage: bool) {
    && !searchMode
    && pages != [] && NextPageParam(pages[|pages| - 1], pages).Some?
    && !isFetchingNextPage
  }

  /** Scrolling to the end fetches only after full pages: the offset it
      sends is twenty times the number of pages, and the tasks loaded are
      exactly that many first tasks of the server's list. */
  lemma NoFetchWhenComplete(server: seq<Task>, f: TaskFilter, pages: seq<seq<Task>>, isFetchingNextPage: bool)
    requires FetchedInOrder(server, f, pages) && pages != []
    requires ScrollEndFetches(false, pages, isFetchingNextPage)
    ensures |Lists.Flatten(pages)| == PageSize * |pages|
    ensures |Lists.Flatten(pages)| <= |server| && Lists.Flatten(pages) == server[..PageSize * |pages|]
  {
    FullPrefix(server, f, pages);
  }

  // -------------------------------------------------------------- selection

  /** The task whose id, written in decimal, is `taskId`. */
  function HasId(taskId: string): Task -> bool {
    (t: Task) => Js.IntToString(t.id) == taskId
  }

  /** The selection effect: with a non-empty `taskId` and tasks on show,
      the first shown task with that id becomes selected; otherwise the
      selection stays. */
  function SelectFromUrl(taskId: Option<string>, shown: seq<Task>, selected: Option<Task>): (r: Option<Task>)
    ensures r != selected ==> Present(taskId) && r.Some? && r.value in shown
                              && Js.IntToString(r.value.id) == taskId.value
  {
    if Present(taskId) && |shown| > 0 then
      match Lists.FindIndex(shown, HasId(taskId.value))
      case Some(i) => Some(shown[i])
      case None => selected
    else selected
  }

  /** The `taskId` a mobile selection writes into the URL selects, once
      the task is on show, a task with that same id. */
  lemma SelectionRoundTrip(t: Task, shown: seq<Task>, selected: Option<Task>)
    requires t in shown
    ensures var r := SelectFromUrl(Some(Js.IntToString(t.id)), shown, selected);
      r.Some? && r.value in shown && r.value.id == t.id
  {
    var i :| 0 <= i < |shown| && shown[i] == t;
    assert HasId(Js.IntToString(t.id))(shown[i]);
    var r := SelectFromUrl(Some(Js.IntToString(t.id)), shown, selected);
    Js.IntToStringInjective(r.value.id, t.id);
  }

  /** With ids unique among the shown tasks, it selects that very task. */
  lemma SelectionRoundTripUnique(t: Task, shown: seq<Task>, selected: Option<Task>)
    requires t in shown
    requires forall i, j :: 0 <= i < j < |shown| ==> shown[i].id != shown[j].id
    ensures SelectFromUrl(Some(Js.IntToString(t.id)), shown, selected) == Some(t)
  {
    SelectionRoundTrip(t, shown, selected);
  }

  /** A `taskId` that is no task's id leaves the selection as it was. */
  lemma UnknownIdKeepsSelection(taskId: string, shown: seq<Task>, selected: Option<Task>)
    requires forall i :: 0 <= i < |shown| ==> Js.IntToString(shown[i].id) != taskId
    ensures SelectFromUrl(Some(taskId), shown, selected) == selected
  {
    if taskId != [] && |shown| > 0 {
      assert forall i :: 0 <= i < |shown| ==> !HasId(taskId)(shown[i]);
    }
  }

  /** On a phone, the detail is shown instead of the list exactly when the
      URL carries a non-empty `taskId`. */
  predicate ShowTaskOnMobile(isMobile: bool, taskId: Option<string>) {
    isMobile && Present(taskId)
  }

  /** The page's own state: the selected task and the saved scroll
      position. */
  class TasksPageState {
    var selected: Option<Task>
    var scrollPosition: int

    constructor()
      ensures selected.None? && scrollPosition == 0
    {
      selected := None;
      scrollPosition := 0;
    }

    /** `handleTaskSelection`: the task becomes selected; on a phone, with
        a task, the scroll position is saved and the returned search
        parameters carry its id. */
    method HandleTaskSelection(task: Option<Task>, isMobile: bool, scrollTop: int,
                               search: seq<(string, string)>)
      returns (navigateTo: Option<seq<(string, string)>>)
      modifies this
      ensures selected == task
      ensures scrollPosition == if isMobile && task.Some? then scrollTop else old(scrollPosition)
      ensures navigateTo == if isMobile && task.Some?
                            then Some(Js.ParamSet(search, "taskId", Js.IntToString(task.value.id)))
                            else None
    {
      selected := task;
      navigateTo := None;
      if isMobile && task.Some? {
        scrollPosition := scrollTop;
        navigateTo := Some(Js.ParamSet(search, "taskId", Js.IntToString(task.value.id)));
      }
    }

    /** The selection effect, run when `taskId` or the shown tasks change. */
    method OnTaskIdChange(taskId: Option<string>, shown: seq<Task>)
      modifies this
      ensures selected == SelectFromUrl(taskId, shown, old(selected))
      ensures scrollPosition == old(scrollPosition)
    {
      if Present(taskId) && |shown| > 0 {
        var found := Lists.FindIndex(shown, HasId(taskId.value));
        if found.Some? {
          selected := Some(shown[found.value]);
        }
      }
    }
  }

  /** Selecting a task on a phone puts its id in the URL, which shows the
      detail; going back (`handleBackToList`, which deletes `taskId` from
      the search parameters) removes it, which shows the list; the other
      parameters are left as they were. */
  lemma MobileNavigation(t: Task, search: seq<(string, string)>, other: string)
    requires other != "taskId"
    ensures var there := Js.ParamSet(search, "taskId", Js.IntToString(t.id));
      && Js.ParamGet(there, "taskId") == Some(Js.IntToString(t.id))
      && ShowTaskOnMobile(true, Js.ParamGet(there, "taskId"))
      && !ShowTaskOnMobile(true, Js.ParamGet(Js.ParamDelete(there, "taskId"), "taskId"))
      && Js.ParamGet(Js.ParamDelete(there, "taskId"), other) == Js.ParamGet(search, other)
  {
    var there := Js.ParamSet(search, "taskId", Js.IntToString(t.id));
    Js.ParamGetSet(search, "taskId", Js.IntToString(t.id), other);
    Js.ParamGetDeleted(there, "taskId", other);
    var s := Js.IntToString(t.id);
    if t.id >= 0 {
      assert Js.IsDigit(s[0]);
    }
  }
}
