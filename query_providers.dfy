/** The two shared query records of the application: the task query the
    sidebar and the task page edit, and the feed query the feed page edits. */
module QueryProviders {
  import opened Wrappers
  import opened BackendTypes

  /** The state of the task-query provider. */
  class TaskQueryState {
    var query: TaskQuery

    /** The initial query: every task, no type, no project. */
    constructor()
      ensures query == TaskQuery(None, AllFilter, None)
    {
      query := TaskQuery(None, AllFilter, None);
    }
  }

  /** The state of the feed-query provider. */
  class FeedQueryState {
    var query: FeedQuery

    /** The initial query: every item, no type, no feed, no folder. */
    constructor()
      ensures query == FeedQuery(None, AllItems, None, None)
    {
      query := FeedQuery(None, AllItems, None, None);
    }
  }
}
