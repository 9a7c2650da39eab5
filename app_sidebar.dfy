/** The task sidebar: the shared task query, the three filter buttons that
    change it, and which of them is highlighted. */
module AppSidebar {
  import opened Wrappers
  import opened BackendTypes
  import QueryProviders

  /** The query a filter button sets. In search mode nothing changes.
      Choosing the completed type forces the completed filter and drops the
      project; choosing only a filter while in completed mode leaves that
      mode; anything not given keeps its current value. */
  function ToggleQuery(q: TaskQuery, searchMode: bool, filter: Option<TaskFilter>, taskType: Option<TaskType>): TaskQuery {
    if searchMode then q
    else if taskType == Some(CompletedTasks) then
      TaskQuery(Some(CompletedTasks), CompletedFilter, None)
    else if filter.Some? && taskType.None? && q.taskType == Some(CompletedTasks) then
      TaskQuery(None, filter.value, q.projectId)
    else
      TaskQuery(if taskType.Some? then taskType else q.taskType, filter.GetOr(q.taskFilter), q.projectId)
  }

  /** The toggle navigates to `/` exactly when it chose the completed type. */
  predicate ToggleNavigatesHome(searchMode: bool, taskType: Option<TaskType>) {
    !searchMode && taskType == Some(CompletedTasks)
  }

  /** "All tasks" is highlighted. */
  predicate AllLit(q: TaskQuery, searchMode: bool) {
    !searchMode && q.taskType != Some(CompletedTasks) && q.taskFilter == AllFilter
  }

  /** "Pending" is highlighted. */
  predicate PendingLit(q: TaskQuery, searchMode: bool) {
    !searchMode && q.taskType != Some(CompletedTasks) && q.taskFilter == PendingFilter
  }

  /** "Completed" is highlighted. */
  predicate CompletedLit(q: TaskQuery, searchMode: bool) {
    !searchMode && q.taskType == Some(CompletedTasks)
  }

  /** In search mode the toggle is inert. */
  lemma ToggleInSearchMode(q: TaskQuery, filter: Option<TaskFilter>, taskType: Option<TaskType>)
    ensures ToggleQuery(q, true, filter, taskType) == q
    ensures !ToggleNavigatesHome(true, taskType)
  {
  }

  /** What each button leaves in the query. */
  lemma ToggleSpec(q: TaskQuery, filter: Option<TaskFilter>, taskType: Option<TaskType>)
    ensures var r := ToggleQuery(q, false, filter, taskType);
      && (taskType == Some(CompletedTasks) ==>
            r.taskType == taskType && r.taskFilter == CompletedFilter && r.projectId.None?)
      && (taskType != Some(CompletedTasks) ==>
            && r.projectId == q.projectId
            && r.taskFilter == (if filter.Some? then filter.value else q.taskFilter)
            && r.taskType == (if taskType.Some? then taskType
                              else if filter.Some? && q.taskType == Some(CompletedTasks) then None
                              else q.taskType))
  {
  }

  /** At most one button is highlighted, and none in search mode. */
  lemma HighlightsExclusive(q: TaskQuery, searchMode: bool)
    ensures !(AllLit(q, searchMode) && PendingLit(q, searchMode))
    ensures !(AllLit(q, searchMode) && CompletedLit(q, searchMode))
    ensures !(PendingLit(q, searchMode) && CompletedLit(q, searchMode))
    ensures searchMode ==> !AllLit(q, searchMode) && !PendingLit(q, searchMode) && !CompletedLit(q, searchMode)
  {
  }

  /** Outside search mode, the button pressed is the one highlighted
      afterwards, even when leaving completed mode. */
  lemma PressedButtonLit(q: TaskQuery)
    ensures AllLit(ToggleQuery(q, false, Some(AllFilter), None), false)
    ensures PendingLit(ToggleQuery(q, false, Some(PendingFilter), None), false)
    ensures CompletedLit(ToggleQuery(q, false, None, Some(CompletedTasks)), false)
  {
  }

  /** `toggleTaskQueryButton`: sets the shared query and reports whether
      to navigate to `/`. */
  method ToggleTaskQueryButton(state: QueryProviders.TaskQueryState, searchMode: bool,
                               filter: Option<TaskFilter>, taskType: Option<TaskType>)
    returns (navigateHome: bool)
    modifies state
    ensures state.query == ToggleQuery(old(state.query), searchMode, filter, taskType)
    ensures navigateHome == ToggleNavigatesHome(searchMode, taskType)
  {
    if searchMode {
      return false;
    }
    var projectId := state.query.projectId;
    var f := filter.GetOr(state.query.taskFilter);
    var t := if taskType.Some? then taskType else state.query.taskType;
    if taskType == Some(CompletedTasks) {
      f := CompletedFilter;
      projectId := None;
    } else if filter.Some? && taskType.None? && state.query.taskType == Some(CompletedTasks) {
      t := None;
    }
    state.query := TaskQuery(t, f, projectId);
    navigateHome := taskType == Some(CompletedTasks);
  }
}
