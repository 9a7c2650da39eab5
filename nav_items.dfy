/** The two navigation groups built from backend data: folders with their
    feeds, and projects. */
module NavItems {
  import opened Wrappers
  import opened BackendTypes
  import Js
  import NavGroup
  import TodoBackend
  import TasksPage

  /** The badge of an unread or task count: the count as text when
      positive, else none. */
  function Badge(count: int): (b: Option<string>)
    ensures b.Some? <==> count > 0
    ensures b.Some? ==> b.value == Js.IntToString(count)
  {
    if count > 0 then Some(Js.IntToString(count)) else None
  }

  /** The sub-entry of a feed: its title, `/feed/<id>`, its favicon and its
      unread badge. */
  function FeedSubItem(feed: Feed): NavGroup.SubItem {
    NavGroup.SubItem(feed.title, "/feed/" + feed.id, Some(feed.faviconUrl), Badge(feed.unreadCount))
  }

  /** The entry of a folder: its name, `/folder/<id>`, its unread badge
      and one sub-entry per feed. */
  function FolderItem(folder: FeedFolder): NavGroup.NavItem {
    NavGroup.NavItem(folder.name, Some("/folder/" + folder.id), Badge(folder.unreadCount), None,
                     Some(seq(|folder.feeds|, i requires 0 <= i < |folder.feeds| => FeedSubItem(folder.feeds[i]))))
  }

  /** The entry put in front of the folders. */
  const AllArticles := NavGroup.NavItem("All Articles", Some("/"), None, None, None)

  /** `getFolders`: "All Articles" first, then one entry per folder in the
      backend's order. */
  function FolderNavItems(folders: seq<FeedFolder>): (r: seq<NavGroup.NavItem>)
    ensures |r| == |folders| + 1
    ensures r[0] == AllArticles
    ensures forall k :: 0 <= k < |folders| ==> r[k + 1] == FolderItem(folders[k])
  {
    [AllArticles] + seq(|folders|, i requires 0 <= i < |folders| => FolderItem(folders[i]))
  }

  /** Each folder entry links to the folder, carries its unread badge, and
      lists its feeds in order, each linking to the feed with the feed's
      favicon and badge. */
  lemma FolderItemSpec(folder: FeedFolder)
    ensures var item := FolderItem(folder);
      && item.title == folder.name
      && item.url == Some("/folder/" + folder.id)
      && (item.badge.Some? <==> folder.unreadCount > 0)
      && item.items.Some? && |item.items.value| == |folder.feeds|
      && forall k :: 0 <= k < |folder.feeds| ==>
           && item.items.value[k].title == folder.feeds[k].title
           && item.items.value[k].url == "/feed/" + folder.feeds[k].id
           && item.items.value[k].iconUrl == Some(folder.feeds[k].faviconUrl)
           && (item.items.value[k].badge.Some? <==> folder.feeds[k].unreadCount > 0)
  {
  }

  /** On a folder's page its entry is active; on a feed's page the entry
      of every folder holding that feed is. */
  lemma FolderActive(folder: FeedFolder, feed: Feed, query: string)
    requires '?' !in folder.id
    ensures NavGroup.CheckIsActive("/folder/" + folder.id, FolderItem(folder))
    ensures NavGroup.CheckIsActive("/folder/" + folder.id + "?" + query, FolderItem(folder))
    ensures feed in folder.feeds ==> NavGroup.CheckIsActive("/feed/" + feed.id, FolderItem(folder))
  {
    var path := "/folder/" + folder.id;
    assert forall k :: 0 <= k < |path| ==> path[k] != '?' by {
      assert forall k :: 8 <= k < |path| ==> path[k] == folder.id[k - 8];
    }
    NavGroup.ActiveWithQuery(path, query, FolderItem(folder));
    if feed in folder.feeds {
      var k :| 0 <= k < |folder.feeds| && folder.feeds[k] == feed;
      NavGroup.CheckIsActiveSpec("/feed/" + feed.id, FolderItem(folder));
      assert FolderItem(folder).items.value[k].url == "/feed/" + feed.id;
    }
  }

  /** The entry of a project: its title, `/project/<id>` and its task
      badge, without sub-entries. */
  function ProjectItem(p: Project): NavGroup.NavItem {
    NavGroup.NavItem(p.title, Some("/project/" + p.id), Badge(p.taskCount), None, None)
  }

  /** `getProjects` of the sidebar: one link per project, in order. */
  function ProjectNavItems(projects: seq<Project>): (r: seq<NavGroup.NavItem>)
    ensures |r| == |projects|
    ensures forall k :: 0 <= k < |projects| ==> r[k] == ProjectItem(projects[k])
  {
    seq(|projects|, i requires 0 <= i < |projects| => ProjectItem(projects[i]))
  }

  /** A project entry is a link to the project page, titled like the
      project, whose path the task page reads back as the project's id. */
  lemma ProjectItemSpec(p: Project, collapsed: bool)
    requires p.id != []
    requires forall k :: 0 <= k < |p.id| ==> TasksPage.LineChar(p.id[k])
    ensures ProjectItem(p).title == p.title
    ensures NavGroup.Render(ProjectItem(p), collapsed) == NavGroup.Link
    ensures TasksPage.ProjectMatch(ProjectItem(p).url.value) == Some(p.id)
  {
    TasksPage.ProjectRouteRoundTrip(p.id);
  }

  /** The backend reports no task counts, so no project shows a badge. */
  lemma NoProjectBadges(raw: seq<TodoBackend.NTProject>)
    ensures forall k :: 0 <= k < |raw| ==> ProjectNavItems(TodoBackend.GetProjects(raw))[k].badge.None?
  {
  }

  /** The ids the backend gives projects are decimal numbers, which the
      task page reads back from the project's link. */
  lemma BackendProjectRoute(p: TodoBackend.NTProject)
    ensures TasksPage.ProjectMatch(ProjectItem(TodoBackend.ToProject(p)).url.value)
            == Some(TodoBackend.ToProject(p).id)
  {
    var id := Js.IntToString(p.id);
    assert id == TodoBackend.ToProject(p).id;
    assert forall k :: 0 <= k < |id| ==> Js.IsDigit(id[k]) || id[k] == '-' by {
      if p.id < 0 {
        assert forall k :: 1 <= k < |id| ==> id[k] == Js.NatToString(-p.id)[k - 1];
      }
    }
    TasksPage.ProjectRouteRoundTrip(id);
  }
}
