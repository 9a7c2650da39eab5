/** The view models the two backends hand to the user interface: projects
    and tasks of the to-do app, feeds, folders and items of the news app,
    and the queries that select them. Dates are epoch milliseconds; a
    property that may be null or undefined is an `Option`. */
module BackendTypes {
  import opened Wrappers

  datatype Project = Project(
    id: string,
    title: string,
    icon: Option<string>,
    description: Option<string>,
    taskCount: int)

  datatype Task = Task(
    id: int,
    project: Option<Project>,
    title: string,
    description: Option<string>,
    priority: int,
    createdAt: Option<int>,
    dueDate: Option<int>,
    completed: bool,
    completedAt: Option<int>,
    tags: Option<seq<string>>)

  /** `TaskType`: `project`, `all` and `completed`. */
  datatype TaskType = ProjectTasks | AllTasks | CompletedTasks

  /** `TaskFilter`: `all`, `pending` and `completed`. */
  datatype TaskFilter = AllFilter | PendingFilter | CompletedFilter

  datatype TaskQuery = TaskQuery(
    taskType: Option<TaskType>,
    taskFilter: TaskFilter,
    projectId: Option<string>)

  datatype Feed = Feed(
    id: string,
    title: string,
    unreadCount: int,
    faviconUrl: string,
    folderId: string)

  datatype FeedFolder = FeedFolder(
    id: string,
    name: string,
    unreadCount: int,
    feeds: seq<Feed>)

  datatype FeedItem = FeedItem(
    id: int,
    feed: Option<Feed>,
    title: string,
    url: string,
    pubDate: int,
    read: bool,
    starred: bool,
    body: Option<string>,
    thumbnailUrl: string)

  /** `FeedType`: a single feed, a folder, or the starred items. */
  datatype FeedType = FeedOnly | FolderFeeds | StarredFeeds

  /** `FeedFilter`: every item, or the unread ones. */
  datatype FeedFilter = AllItems | UnreadItems

  datatype FeedQuery = FeedQuery(
    feedType: Option<FeedType>,
    feedFilter: FeedFilter,
    feedId: Option<string>,
    folderId: Option<string>)

  /** A string-valued property is truthy when present and not empty. */
  predicate Present(s: Option<string>) {
    s.Some? && s.value != ""
  }
}
