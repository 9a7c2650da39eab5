# shadcn-todotasks core in Dafny

This project models the core of shadcn-todotasks: a React front-end that combines
a task manager, backed by a Nextcloud-hosted Todo API, with an RSS/Atom
reader, backed by the Nextcloud News API. It covers the following parts.

- **Backends.** The two backends turn Nextcloud's JSON answers into the app's
  projects, tasks, folders, feeds and articles, and build the requests the app
  sends. The modules are `TodoBackend` and `NewsBackend`, with the shared types
  in `BackendTypes`.
- **Task list.** Sorting and querying are in `TaskQueries`; the
  "time since" label is in `TimeSince`.
- **Shared state.** The React contexts that hold the app's shared state are
  `QueryProviders`, `SearchContext` and `FontSizeContext`.
- **Pages, lists and forms.** These are the state machines of the
  two main pages (`TasksPage`, `FeedsPage`), the lists (`TasksList`,
  `ItemsList`, `FilterItemList`), the sidebar (`AppSidebar`, `NavGroup`,
  `NavItems`, `SidebarResize`) and the forms (`AddTaskModal`, `AddTask`,
  `TaskDetail`, `UserAuthForm`, `Combobox`).
- **Editor.** `SlashExtension` is the editor's slash-command extension;
  `SlashCommand` models the alternative menu of
  `src/components/tiptap/slash-command-new.tsx` (the extension itself
  renders `slash-command.tsx`, which is not part of this model).
- **Query client.** The global retry and error policy of the query client
  is in `QueryClient`.
- **Development proxy.** The URL rewrite of the development proxy is in
  `DevProxy`.

The code falls into two kinds, and each gets its own form.

- **Pure code** becomes functions, with lemmas about them. This covers the
  backend mappings, sorting, filters, labels and keys.
- **Code that changes state step by step** becomes classes whose methods
  modify fields:
  - React state and refs;
  - `localStorage`;
  - the item array a click marks as read;
  - the backend's cached API URL.

  Each method is proved against a specification function. Lemmas then state
  what the source promises about that function.

Network answers and the clock become parameters: a request is modelled as
the request the app builds, plus a function of the server's answer. Two
shared modules model JavaScript's own behaviour:
- `Js` models `parseInt`, `String(n)`, `split`, `trim`, `toLowerCase` on
  ASCII and `NaN`;
- `Lists` models `filter`, `some`, `find` and `findIndex`.

## Model

| member | source | states |
|---|---|---|
| AddTask.DefaultsNeedTitleAndProject | src/features/tasks/add-task.tsx:66-72 | the page's initial values (empty title, normal priority, no project) are refused by its schema; any non-empty title plus a project makes them acceptable |
| AddTask.IsNewProjectSpec | src/features/tasks/add-task.tsx:76 | a project field counts as new exactly when no loaded project has that id; a field holding only a loaded project's title still counts as new |
| AddTask.ResolvedProjectId | src/features/tasks/add-task.tsx:78-81 | the project submitted is the field itself for a loaded id, and the server's id of the created project for a new one |
| AddTask.Submit | src/features/tasks/add-task.tsx:74-84 | a valid form creates a project exactly when the field is new, and passes the form on unchanged except for its project, which is replaced by the resolved id |
| AddTask.ProjectDroppedAsWritten | src/backends/nextcloud-todo/nextcloud-todo.tsx:270 | as written, the request `createTask` builds from this page's values (the project passed as its id string) always carries the project id `NaN`, whatever project the form names |
| AddTask.CorrectedKeepsProject | src/features/tasks/add-task.tsx:83 | the corrected request carries the resolved project id (the created project's server id for a new name) and the form's title, description and priority number |
| AddTaskModal.PriorityToNumberSpec | src/features/tasks/add-task-modal.tsx:102-109 | every priority word maps into 1..3; urgent, normal and non-urgent map in order of urgency; 3 and 1 are reached only by their own words; unknown words map like normal |
| AddTaskModal.DefaultsNeedTitle | src/features/tasks/add-task-modal.tsx:83-91 | the dialog's initial values are refused by the schema only for lacking a title |
| AddTaskModal.ResolveProject | src/features/tasks/add-task-modal.tsx:115-123 | an existing project returned by the resolution is one of the loaded projects |
| AddTaskModal.ResolveProjectSpec | src/features/tasks/add-task-modal.tsx:115-123 | no project exactly for an empty field; creation exactly when no loaded project has the field as id or title; otherwise the first such project |
| AddTaskModal.SubmitSpec | src/features/tasks/add-task-modal.tsx:111-134 | the form is refused exactly when the schema refuses it; otherwise the request carries the title, the description and the priority number; its project id is none, the first matching loaded project's, or the created project's server id, and only an unknown name creates a project |
| AddTaskModal.BlankTitlePassesForm | src/features/tasks/add-task-modal.tsx:24-30 | a title of one space passes the form's schema but `createTask` refuses it, so no task is sent |
| AddTaskModal.AddTaskDialog.constructor | src/features/tasks/add-task-modal.tsx:83-91 | the dialog starts closed with the default values |
| AddTaskModal.AddTaskDialog.SetOpen | src/features/tasks/add-task-modal.tsx:137 | opening or closing changes only the open flag |
| AddTaskModal.AddTaskDialog.Edit | src/features/tasks/add-task-modal.tsx:83-91 | editing replaces the form values and keeps the dialog's open state |
| AddTaskModal.AddTaskDialog.Submit | src/features/tasks/add-task-modal.tsx:67-74 | the outcome is the submission of the current values; on an accepted request the dialog closes and the form resets, otherwise nothing changes |
| AppSidebar.ToggleInSearchMode | src/components/layout/app-sidebar.tsx:27-28 | in search mode a button press leaves the query alone and does not navigate |
| AppSidebar.ToggleSpec | src/components/layout/app-sidebar.tsx:30-48 | "Completed" forces the completed filter and drops the project; another filter leaves completed mode; otherwise the given filter and type override the query's |
| AppSidebar.HighlightsExclusive | src/components/layout/app-sidebar.tsx:76-107 | at most one of the three buttons is highlighted, and none in search mode |
| AppSidebar.PressedButtonLit | src/components/layout/app-sidebar.tsx:72-107 | outside search mode, the button pressed is the one highlighted afterwards |
| AppSidebar.ToggleTaskQueryButton | src/components/layout/app-sidebar.tsx:26-54 | the shared query becomes the toggled query, and navigation to `/` happens exactly for "Completed" outside search mode |
| Combobox.Chosen | src/components/ui/combobox.tsx:40-41 | choosing the selected value reports an empty value; choosing any other value reports that value |
| Combobox.ChooseAgainClears | src/components/ui/combobox.tsx:41 | choosing the same entry twice leaves nothing selected |
| Combobox.FilteredItemsSpec | src/components/ui/combobox.tsx:48-53 | an empty search keeps every entry; otherwise the entries kept are a subsequence, holding exactly those whose caption contains the search text, case-insensitively |
| Combobox.TriggerLabel | src/components/ui/combobox.tsx:70-72 | without a value the trigger shows the placeholder |
| Combobox.TriggerLabelSpec | src/components/ui/combobox.tsx:70-72 | with a value, the trigger shows a caption exactly when some entry has that value, and it is the first such entry's caption |
| Combobox.ComboboxState.constructor | src/components/ui/combobox.tsx:37-38 | the popover starts closed with an empty search |
| Combobox.ComboboxState.Search | src/components/ui/combobox.tsx:78-81 | typing sets the search text and leaves the popover as it is |
| Combobox.ComboboxState.SetOpen | src/components/ui/combobox.tsx:55-59 | closing the popover also clears the search; opening keeps it |
| Combobox.ComboboxState.Select | src/components/ui/combobox.tsx:40-46 | selecting reports the toggled value and closes the popover, which clears the search |
| Combobox.ComboboxState.SelectTyped | src/components/ui/combobox.tsx:84-88 | the entry shown when nothing matches chooses the typed text itself |
| DevProxy.Rewrite | vite.config.ts:156 | the proxy removes one leading `/api` as a plain text prefix and leaves any other path alone |
| DevProxy.RewriteRemovesPrefix | vite.config.ts:156 | rewriting `/api` followed by a path gives that path back |
| DevProxy.DevUrlRewrite | src/backends/nextcloud-todo/nextcloud-todo.tsx:38-39 | a URL that does not start with `https://` is left alone (the rewrite of one that does is stated by the next two rows) |
| DevProxy.DevUrlRewriteOfHost | src/backends/nextcloud-todo/nextcloud-todo.tsx:39 | `https://host/p` becomes `/api/p` for a host without slashes |
| DevProxy.DevUrlRoundTrip | vite.config.ts:156 | the base-URL rewrite followed by the proxy's rewrite requests `/p` from the Nextcloud host for `https://host/p` |
| FeedsPage.ParamsQuerySpec | src/features/feeds/index.tsx:61-86 | the route effect keeps the filter and never sets both ids; a feed id wins over a folder id and selects feed mode; a folder id alone selects folder mode; neither selects all items; running the effect again changes nothing |
| FeedsPage.ParamsQueryRequest | src/backends/nextcloud-news/nextcloud-news.tsx:115-121 | the query the effect sets asks the News API for type 0 with the feed id, type 1 with the folder id, or type 3 with id 0 |
| FeedsPage.OnRouteChange | src/features/feeds/index.tsx:61-86 | the shared feed query becomes the query derived from the route |
| FeedsPage.NextPageParam | src/features/feeds/index.tsx:137-141 | there is no next page exactly after an empty page; otherwise the cursor is the id of the last item received |
| FeedsPage.CursorWindow | src/backends/nextcloud-news/nextcloud-news.tsx:115-124 | a page returned for a cursor holds at most one batch of items |
| FeedsPage.CursorAfterPrefix | src/features/feeds/index.tsx:140 | on a list sorted newest first, the id of the m-th item as cursor starts the next page at item m |
| FeedsPage.LoadedPrefix | src/features/feeds/index.tsx:130-145 | the pages loaded with these cursors, flattened, are the first items of the server's list in order, none skipped or repeated |
| FeedsPage.LoadedAll | src/features/feeds/index.tsx:137-141 | once a page comes back empty the pages hold the whole list |
| FeedsPage.EmptyWindow | src/features/feeds/index.tsx:139 | an empty page means the cursor is past the end of the list |
| FeedsPage.LoadMoreContinues | src/features/feeds/index.tsx:201-204 | when `loadMore` fetches, the cursor is the id of the last item loaded and the next page starts right after the loaded items |
| FeedsPage.Items | src/features/feeds/index.tsx:145 | in search mode the list is the search results |
| FeedsPage.ShownAreNewest | src/features/feeds/index.tsx:145 | outside search mode the list shown is the newest items of the server's list, in order |
| FeedsPage.CurrentArticle | src/features/feeds/index.tsx:173-178 | an article other than the hand-selected one is shown only for a non-empty `articleId`, and it is one of the listed items |
| FeedsPage.ArticleRoundTrip | src/features/feeds/index.tsx:101 | the `articleId` written for a listed item selects a listed item with the same id |
| FeedsPage.ArticleRoundTripNewest | src/features/feeds/index.tsx:174-175 | on the loaded pages, where ids are distinct, that `articleId` selects that very item |
| FeedsPage.NoArticleId | src/features/feeds/index.tsx:174-178 | without an `articleId`, or with an empty one, the hand-selected article is shown |
| FeedsPage.FeedsPageState.constructor | src/features/feeds/index.tsx:37 | nothing is selected and no scroll position is saved |
| FeedsPage.FeedsPageState.HandleArticleSelection | src/features/feeds/index.tsx:91-108 | the article becomes selected; on a phone, with an article, the list's scroll position is saved and the page navigates to the same path with `articleId` set to the article's id |
| FeedsPage.MobileNavigation | src/features/feeds/index.tsx:99-120 | selecting on a phone sets `articleId` to the article's id, going back deletes it, and the other parameters keep their values |
| FilterItemList.ScrollEndFiresSpec | src/features/feeds/FilterItemList.tsx:82-98 | the end of the list is reported only for a user scroll downwards, on a mounted list, with no page being appended, to within 10 pixels of the bottom; scrolling up or to the same place never reports it |
| FilterItemList.ScrollRefs.constructor | src/features/feeds/FilterItemList.tsx:23-43 | the refs start at position 0, with no program scroll, no append and no pending restore, and remember the initial item count |
| FilterItemList.ScrollRefs.GetScrollTop | src/features/feeds/FilterItemList.tsx:27 | the position of the list, or 0 when it is not mounted |
| FilterItemList.ScrollRefs.SetScrollTop | src/features/feeds/FilterItemList.tsx:28-36 | on a mounted list the position moves and the move is marked as the program's; an unmounted list is left alone |
| FilterItemList.ScrollRefs.InternalTimerFires | src/features/feeds/FilterItemList.tsx:32-34 | after the timer, scrolls count as the user's again; nothing else changes |
| FilterItemList.ScrollRefs.OnItemsLength | src/features/feeds/FilterItemList.tsx:46-71 | when the item count grows a page is being appended and, on a mounted list, the current position is saved for restoring, replacing any earlier one; the new count is remembered |
| FilterItemList.ScrollRefs.RestoreTimerFires | src/features/feeds/FilterItemList.tsx:60-67 | a pending restore puts the saved position back and ends the append |
| FilterItemList.ScrollRefs.Scroll | src/features/feeds/FilterItemList.tsx:82-98 | a scroll reports the end exactly as the rule above says, and it updates the last position only when the scroll was the user's |
| FontSizeContext.IndexOf | src/context/font-size-context.tsx:54-57 | the position of a size among xs, sm, base, lg and xl, and -1 exactly for any other text |
| FontSizeContext.StepSpec | src/context/font-size-context.tsx:56-68 | a known size steps one place up or down among the five sizes and stops at xs and xl |
| FontSizeContext.StepRoundTrip | src/context/font-size-context.tsx:56-68 | away from the ends, a step up then down, or down then up, comes back to the same size |
| FontSizeContext.UnknownSize | src/context/font-size-context.tsx:57-66 | an unknown saved size steps up to xs and does not step down |
| FontSizeContext.FontSizeProvider.constructor | src/context/font-size-context.tsx:25-28 | the size starts as the saved one, or base without one |
| FontSizeContext.FontSizeProvider.SetFontSize | src/context/font-size-context.tsx:49-52 | the size becomes current and is saved under `fontSize` |
| FontSizeContext.FontSizeProvider.IncreaseFontSize | src/context/font-size-context.tsx:56-61 | the size steps up, and it is saved only when it moved |
| FontSizeContext.FontSizeProvider.DecreaseFontSize | src/context/font-size-context.tsx:63-68 | the size steps down, and it is saved only when it moved |
| FontSizeSwitch.DisabledIffNoOp | src/components/font-size-switch.tsx:10-13 | for a known size, a button is disabled exactly when pressing it would change nothing: decrease at xs, increase at xl |
| FontSizeSwitch.PreviewGrows | src/components/font-size-switch.tsx:33-37 | exactly the five sizes have a preview, from 10 pixels at xs, growing by two with every step |
| ItemsList.TitleColorSpec | src/features/feeds/items-list.tsx:12-16 | a selected title is in the primary colour; an unselected one is muted exactly when read |
| ItemsList.Click | src/features/feeds/items-list.tsx:43-47 | the clicked item is marked read in place and no other item changes; the selected article is that item, and its id as text is sent to the server |
| ItemsList.ClickedRow | src/features/feeds/items-list.tsx:27-28 | after a click the row is selected and read, so its title is in the primary colour; the id sent parses back to the item's id |
| ItemsList.ThumbnailSrc | src/features/feeds/items-list.tsx:58 | the image source is never empty, and it is the thumbnail whenever there is one |
| ItemsList.ImageErrorSettles | src/features/feeds/items-list.tsx:61-66 | after an image error the source holds the fallback icon; a second error changes nothing; a source that already holds the icon is kept |
| NavGroup.PathPartSpec | src/components/layout/nav-group.tsx:288 | the location without its query is the part before the first `?`, or the whole location when it has none, and it holds no `?` |
| NavGroup.CheckIsActiveSpec | src/components/layout/nav-group.tsx:284-292 | an entry is active exactly when its url is the location, or the location without its query, or some sub-entry's url is the whole location |
| NavGroup.ActiveWithQuery | src/components/layout/nav-group.tsx:287-288 | a link to a path without `?` is active on that path, whatever query is added to it |
| NavGroup.NoQueryCoincide | src/components/layout/nav-group.tsx:287-288 | for a location without a query, the first two tests agree |
| NavGroup.SubItemIcon | src/components/layout/nav-group.tsx:32-54 | an icon shown is never empty and is the sub-entry's own or its parent's |
| NavGroup.SubItemIconPrecedence | src/components/layout/nav-group.tsx:32-54 | the sub-entry's own icon wins; the parent's is shown only without one; no icon exactly when neither has one |
| NavGroup.ItemKey | src/components/layout/nav-group.tsx:64-69 | a titled entry has a text key, and an untitled one is keyed by its index |
| NavGroup.ItemKeyInjective | src/components/layout/nav-group.tsx:66 | titled entries whose titles hold no `-` share a key only when they share title and url |
| NavGroup.Render | src/components/layout/nav-group.tsx:71-79 | an entry without sub-entries is a link; one with sub-entries is a dropdown in the collapsed sidebar and a collapsible section otherwise |
| NavItems.Badge | src/components/layout/folders-nav-group.tsx:16 | a badge appears exactly for a positive count, and shows the count as text |
| NavItems.FolderNavItems | src/components/layout/folders-nav-group.tsx:9-36 | "All Articles" comes first, then one entry per folder in the backend's order |
| NavItems.FolderItemSpec | src/components/layout/folders-nav-group.tsx:12-26 | a folder entry links to the folder and carries its unread badge; it lists the folder's feeds in order, each linking to the feed with its favicon and badge |
| NavItems.FolderActive | src/components/layout/folders-nav-group.tsx:17-21 | a folder's entry is active on the folder's page, with or without a query, and on the page of any feed it holds |
| NavItems.ProjectNavItems | src/components/layout/projects-nav-group.tsx:9-22 | one entry per project, in order |
| NavItems.ProjectItemSpec | src/components/layout/projects-nav-group.tsx:12-19 | a project entry is a link titled like the project, and the task page reads the project's id back from its path |
| NavItems.NoProjectBadges | src/components/layout/projects-nav-group.tsx:16 | the projects the backend returns carry no task count, so no project entry has a badge |
| NavItems.BackendProjectRoute | src/backends/nextcloud-todo/nextcloud-todo.tsx:70-85 | the decimal id the backend gives a project is read back by the task page from the project's link |
| QueryClient.RetrySpec | src/main.tsx:31-42 | development never retries; production stops after the fourth failure; before that it retries every error except an Axios 401 or 403, and an error without a response counts as status 0 |
| QueryClient.QueryErrorRouting | src/main.tsx:58-76 | 401 ends the session and goes to sign-in with the current location as redirect; 500 and 403 go to their pages; any other error has no effect; there is at most one navigation, and the session ends exactly on 401 |
| QueryClient.MutationErrorSpec | src/main.tsx:47-55 | the server-error handler always runs, and the "Content not modified!" toast appears exactly for an Axios 304 |
| QueryProviders.TaskQueryState.constructor | src/context/task-query-provider.tsx:12-17 | the initial task query asks for every task, with no type and no project |
| QueryProviders.FeedQueryState.constructor | src/context/feed-query-provider.tsx:12-18 | the initial feed query asks for every item, with no type, no feed and no folder |
| SearchContext.SearchState.constructor | src/context/search-context.tsx:28-33 | the popup is closed, with no query, no results, no error and no search running, outside search mode |
| SearchContext.SearchState.ClearSearchMode | src/context/search-context.tsx:35-41 | the popup closes and search mode ends, dropping the results, query and error; a running search stays flagged; clearing a cleared state changes nothing |
| SidebarResize.InitialWidth | src/hooks/use-sidebar-resize.tsx:16-19 | without a non-empty saved text the width starts at the default; otherwise it is the saved text parsed as an integer, which may be NaN |
| SidebarResize.ReloadKeepsWidth | src/hooks/use-sidebar-resize.tsx:16-25 | a width the hook saved, NaN included, is the width it starts with next time |
| SidebarResize.RunKeepsBounds | src/hooks/use-sidebar-resize.tsx:74-81 | no sequence of drag events takes a width within the bounds out of them, and any other width either stays as it was or ends within them |
| SidebarResize.MovesNeedMouseDown | src/hooks/use-sidebar-resize.tsx:75 | mouse moves without a mouse-down first leave the width unchanged |
| SidebarResize.SidebarResizer.constructor | src/hooks/use-sidebar-resize.tsx:10-25 | the bounds default to 200 and 400; the width is the restored one, not resizing, and the first run of the effect saves it under the key |
| SidebarResize.SidebarResizer.Store | src/hooks/use-sidebar-resize.tsx:24-25 | a new width is saved under the key, so the saved text always matches the width |
| SidebarResize.SidebarResizer.MouseDown | src/hooks/use-sidebar-resize.tsx:55-56 | resizing starts and the width is unchanged |
| SidebarResize.SidebarResizer.MouseUp | src/hooks/use-sidebar-resize.tsx:100-101 | resizing stops and the width is unchanged |
| SidebarResize.SidebarResizer.MouseMove | src/hooks/use-sidebar-resize.tsx:74-81 | while resizing the width follows a mouse within the bounds and is saved; otherwise the width is unchanged; a width within the bounds stays within them |
| SidebarResize.SidebarResizer.ResetToDefault | src/hooks/use-sidebar-resize.tsx:135-137 | the width goes back to the default and is saved |
| SidebarResize.SidebarResizer.SetSidebarWidth | src/hooks/use-sidebar-resize.tsx:143 | any width is taken unchecked, even outside the bounds, and saved |
| SlashCommand.UpIndex | src/components/tiptap/slash-command-new.tsx:33-35 | with no entries the index becomes NaN |
| SlashCommand.DownIndex | src/components/tiptap/slash-command-new.tsx:37-39 | with no entries the index becomes NaN |
| SlashCommand.StepInRange | src/components/tiptap/slash-command-new.tsx:33-39 | with entries, up and down keep the index among them, moving one place and wrapping at the ends |
| SlashCommand.StepRoundTrip | src/components/tiptap/slash-command-new.tsx:33-39 | up undoes down and down undoes up |
| SlashCommand.ItemAt | src/components/tiptap/slash-command-new.tsx:26-31 | an entry is run exactly when the index is among the entries, and it is the entry at that index |
| SlashCommand.SlashMenu.constructor | src/components/tiptap/slash-command-new.tsx:24 | the menu starts at the first entry |
| SlashCommand.SlashMenu.SetItems | src/components/tiptap/slash-command-new.tsx:45-47 | new entries reset the index to the first |
| SlashCommand.SlashMenu.Hover | src/components/tiptap/slash-command-new.tsx:103 | hovering an entry highlights it |
| SlashCommand.SlashMenu.Up | src/components/tiptap/slash-command-new.tsx:33-35 | the highlight moves up one place, wrapping |
| SlashCommand.SlashMenu.Down | src/components/tiptap/slash-command-new.tsx:37-39 | the highlight moves down one place, wrapping |
| SlashCommand.SlashMenu.OnKeyDown | src/components/tiptap/slash-command-new.tsx:50-67 | the arrows move the highlight and Enter runs the highlighted entry, which is one of the entries; exactly these three keys are reported as handled |
| SlashExtension.ItemsSpec | src/components/tiptap/slash-extension.tsx:87-91 | the list keeps the catalogue's order, and holds a command exactly when its title or description contains the query, case-insensitively, or one of its search terms contains the lower-cased query |
| SlashExtension.EmptyQuery | src/components/tiptap/slash-extension.tsx:22-91 | an empty query lists all eight commands |
| SlashExtension.Narrowing | src/components/tiptap/slash-extension.tsx:87-91 | typing more narrows the list: when the shorter query is part of the longer one, every command kept by the longer is kept by the shorter |
| SlashExtension.ExtensionKeyDown | src/components/tiptap/slash-extension.tsx:128-132 | Escape is handled without reaching the menu; any other key gets the menu's answer |
| TaskDetail.PriorityLabelSpec | src/features/tasks/TaskDetail.tsx:44-51 | priorities 1, 2 and 3 have three different labels, and "None" is given exactly to every other priority |
| TaskDetail.DialogPriorityLabel | src/features/tasks/TaskDetail.tsx:44-51 | any priority set by the add-task dialog gets a real label: urgent is High, normal is Medium, non-urgent is Low |
| TaskDetail.OverdueSpec | src/features/tasks/TaskDetail.tsx:147 | a completed task is never overdue; an open task past its due date is; an overdue task stays overdue as time passes |
| TaskDetail.ControlsSpec | src/features/tasks/TaskDetail.tsx:79 | a completed task has no Complete button and a disabled toggle; an open task shows the button, and its toggle is disabled exactly while loading; tags show only when there is at least one |
| TaskDetail.FailureAlert | src/features/tasks/TaskDetail.tsx:28 | the alert is the prefix followed by the error's message, or by "Unknown error" when there is none |
| TaskDetail.TaskDetailState.constructor | src/features/tasks/TaskDetail.tsx:16 | the pane starts not loading |
| TaskDetail.TaskDetailState.StartCompletion | src/features/tasks/TaskDetail.tsx:18-24 | a completed task is left alone and nothing is sent; otherwise loading starts and the task's id is sent as text |
| TaskDetail.TaskDetailState.FinishCompletion | src/features/tasks/TaskDetail.tsx:22-31 | exactly a failure raises an alert, with the failure's message; loading ends in every case |
| TaskDetail.CompletionCallId | src/features/tasks/TaskDetail.tsx:24 | the id sent parses back to the task's id |
| TasksList.TitleColorSpec | src/features/tasks/tasks-list.tsx:12-16 | a selected title is in the primary colour; an unselected one is muted and struck through exactly when completed |
| TasksList.SelectionSpec | src/features/tasks/tasks-list.tsx:25 | with distinct ids at most one row is selected; selecting a task selects its row; with nothing selected no row is |
| TasksList.PriorityBarSpec | src/features/tasks/tasks-list.tsx:43-48 | the bar is drawn exactly for a positive priority, in the same hue as the detail pane's label |
| TasksList.RenderSpec | src/features/tasks/tasks-list.tsx:23-94 | the list draws the "No tasks found" message exactly when there are no tasks, and then alone; otherwise one row per task, in order, keyed by the task's id and showing its title |
| TasksList.RenderSelection | src/features/tasks/tasks-list.tsx:25-65 | with distinct ids, exactly the selected task's row is marked selected and titled in the primary colour, and a row shows the check icon exactly when its task is completed |
| UserAuthForm.SchemaSpec | src/features/auth/sign-in/components/user-auth-form.tsx:23-39 | the form is valid exactly for a non-empty valid URL, a non-empty username and a password of at least 7 UTF-16 code units, as JavaScript's `length` counts; an empty password and a short one get their own messages; the blank form is refused |
| UserAuthForm.PasswordCodeUnits | src/features/auth/sign-in/components/user-auth-form.tsx:32-38 | any seven characters pass the password rule; four characters above U+FFFF (four emoji) pass too, being eight code units; without such characters, seven characters are needed |
| UserAuthForm.SignInFeedsBackend | src/features/auth/sign-in/components/user-auth-form.tsx:71-74 | after sign-in the backends read back the URL, login and password given, and the authenticated flag; other keys are unchanged |
| UserAuthForm.AuthForm.constructor | src/features/auth/sign-in/components/user-auth-form.tsx:42-43 | the form starts not loading and without an error |
| UserAuthForm.AuthForm.StartSubmit | src/features/auth/sign-in/components/user-auth-form.tsx:55-67 | loading starts and the old error goes; the News folders URL under the given address is probed with the username and password as credentials |
| UserAuthForm.AuthForm.FinishSubmit | src/features/auth/sign-in/components/user-auth-form.tsx:69-92 | an answer in 200..299 saves the credentials and goes home; 401, any other answer and a thrown error each set their own message and save nothing; loading ends in every case |
| TaskQueries.PriorityRank | src/features/tasks/data/queries.ts:9-14 | priorities 0 to 3 rank as themselves, and every other priority ranks as 0 |
| TaskQueries.CompareIsKeyOrder | src/features/tasks/data/queries.ts:17-37 | the comparator orders tasks by their keys: dated before undated, then by due time, then by priority rank, highest first; it returns 0 exactly when the keys are equal |
| TaskQueries.DatedFirst | src/features/tasks/data/queries.ts:26-27 | a task with a due date goes before one without |
| TaskQueries.EarlierFirst | src/features/tasks/data/queries.ts:19-25 | of two dated tasks with different due times, the earlier goes first |
| TaskQueries.HigherPriorityFirst | src/features/tasks/data/queries.ts:29-34 | with equal or absent due dates the higher priority rank goes first |
| TaskQueries.CompareAntisymmetric | src/features/tasks/data/queries.ts:17-37 | swapping the arguments flips the comparator's sign |
| TaskQueries.LeTotal | src/features/tasks/data/queries.ts:17-37 | any two tasks are ordered one way or the other |
| TaskQueries.LeTransitive | src/features/tasks/data/queries.ts:17-37 | the order is transitive, so the comparator is a total preorder that a sort can respect |
| TaskQueries.InsertDown | src/features/tasks/data/queries.ts:16-38 | one insertion pass extends the sorted prefix by one task, leaves the rest of the array alone and keeps the same tasks |
| TaskQueries.SortTasks | src/features/tasks/data/queries.ts:16-38 | the array is sorted in place into comparator order and is a permutation of what it held |
| TaskQueries.TasksQueryKey | src/features/tasks/data/queries.ts:42 | the cache key carries the project id, or `all` without one |
| TaskQueries.TasksQueryKeyInjective | src/features/tasks/data/queries.ts:42 | two queries share a cache entry exactly when they ask for the same project, as long as no project id is the text `all` |
| TaskQueries.ProjectIdNotAll | src/features/tasks/data/queries.ts:42 | a project id the backend produces is never the text `all` |
| TaskQueries.TasksQueryPending | src/features/tasks/data/queries.ts:43-51 | before sorting, the query's list keeps exactly the uncompleted tasks, in the backend's order, each as often as it occurs |
| TasksPage.LineEnd | src/features/tasks/index.tsx:63 | the greedy `.+` stops at the first line terminator or at the end of the path |
| TasksPage.ProjectMatchSpec | src/features/tasks/index.tsx:63-65 | the path matches exactly when it holds `/project/` followed by a character; the capture starts after the leftmost such `/project/` and runs to the end of the line |
| TasksPage.ProjectMatchNonEmpty | src/features/tasks/index.tsx:63-65 | the captured project id is never empty and holds no line terminator |
| TasksPage.ProjectRouteRoundTrip | src/features/tasks/index.tsx:63-65 | the path `/project/<id>` gives back the id |
| TasksPage.RouteQuerySpec | src/features/tasks/index.tsx:61-80 | the route effect keeps the filter; the project is the id captured from the path; a project type is set exactly on a project path; running it twice is running it once |
| TasksPage.OnPathChange | src/features/tasks/index.tsx:61-80 | the shared task query becomes the query derived from the path |
| TasksPage.CompletedFromProjectPage | src/features/tasks/index.tsx:61-80 | pressing "Completed" on a project page sets the completed type, but after the navigation to `/` the route effect drops it: the completed filter stays and no filter button is highlighted |
| TasksPage.Window | src/backends/nextcloud-todo/nextcloud-todo.tsx:141-151 | the server's answer at an offset holds at most twenty tasks; the request carries the project, the offset and the limit, no status |
| TasksPage.Page | src/backends/nextcloud-todo/nextcloud-todo.tsx:175-179 | a page is the server's window with the status filter applied in the browser, so it is never longer than the window |
| TasksPage.FetchNext | src/features/tasks/index.tsx:130-134 | the next page is fetched at the number of tasks loaded so far, which continues the pages fetched in order |
| TasksPage.FullPrefix | src/features/tasks/index.tsx:131-134 | while every page is full, the loaded count is twenty times the number of pages, the pages are the first tasks of the server's list, and the filter dropped none of them |
| TasksPage.LoadedPrefix | src/features/tasks/index.tsx:124-141 | the pages loaded, flattened, are the first tasks of the filtered list, in order, none skipped or repeated |
| TasksPage.LastPage | src/features/tasks/index.tsx:131-134 | the last page, fetched at the count loaded before it, is appended to the pages before it |
| TasksPage.LoadedAll | src/features/tasks/index.tsx:131-134 | without a status filter, once a page comes back short the pages hold the server's whole list |
| TasksPage.ShortWindow | src/features/tasks/index.tsx:133 | a window of the server's list shorter than twenty reaches the end of that list |
| TasksPage.EarlyStopAsWritten | src/backends/nextcloud-todo/nextcloud-todo.tsx:175-179 | under the pending filter, a server list of one completed task then twenty pending ones gives a first page of nineteen, after which no page is asked for, so the twentieth pending task is never loaded |
| TasksPage.FilteredOnServer | src/features/tasks/index.tsx:131-134 | with the status filtered by the server, a short last page means every task of that status has been loaded |
| TasksPage.TasksToDisplay | src/features/tasks/index.tsx:144-146 | in search mode the list is the search results, or empty without any |
| TasksPage.DisplayedIsPrefix | src/features/tasks/index.tsx:139-146 | outside search mode the list shown is the first tasks of the query's list with the status filter, in the backend's order |
| TasksPage.NoFetchWhenComplete | src/features/tasks/index.tsx:268-272 | scrolling to the end fetches only when every page so far is full: the offset sent is twenty times the number of pages, and the tasks loaded are exactly that many first tasks of the server's list |
| TasksPage.SelectFromUrl | src/features/tasks/index.tsx:149-156 | the selection changes only for a non-empty `taskId`, and then only to one of the tasks shown |
| TasksPage.SelectionRoundTrip | src/features/tasks/index.tsx:95 | the `taskId` written for a shown task selects a shown task with the same id |
| TasksPage.SelectionRoundTripUnique | src/features/tasks/index.tsx:149-156 | with ids distinct among the shown tasks, that `taskId` selects that very task |
| TasksPage.UnknownIdKeepsSelection | src/features/tasks/index.tsx:151-154 | a `taskId` that is no shown task's id leaves the selection as it was |
| TasksPage.TasksPageState.constructor | src/features/tasks/index.tsx:38 | nothing is selected and no scroll position is saved |
| TasksPage.TasksPageState.HandleTaskSelection | src/features/tasks/index.tsx:85-102 | the task becomes selected; on a phone, with a task, the scroll position is saved and the page navigates to the same path with `taskId` set to the task's id |
| TasksPage.TasksPageState.OnTaskIdChange | src/features/tasks/index.tsx:149-156 | the selection becomes the one the URL selects, and the saved scroll position is unchanged |
| TasksPage.MobileNavigation | src/features/tasks/index.tsx:93-114 | selecting on a phone sets `taskId` to the task's id, which shows the detail; going back removes it, which shows the list; the other parameters keep their values |
| TimeSince.BucketSpec | src/lib/utils.ts:14-45 | the unit is the largest whose length has elapsed, and the count is the number of whole units elapsed, at least 1 except for seconds |
| TimeSince.FutureIsNegativeSeconds | src/lib/utils.ts:39-40 | an instant in the future is counted as a negative number of seconds |
| TimeSince.TimeSinceTextDetermines | src/lib/utils.ts:51 | two elapsed times with the same long text have the same unit and count |
| TimeSince.NumberChars | src/lib/utils.ts:51 | a count is written with digits and a minus sign only |
| TimeSince.TimeSinceShortTextDetermines | src/lib/utils.ts:91 | two elapsed times with the same short text have the same unit and count, since every abbreviation starts with a letter |
| TimeSince.TimeSincePlural | src/lib/utils.ts:47-51 | the long text is the count, the unit's name, plural exactly when the count is 0 or above 1, and ` ago` |
| TodoBackend.PadTwoDigits | src/backends/nextcloud-todo/nextcloud-todo.tsx:12 | a number from 0 to 99 is padded to exactly its two decimal digits |
| TodoBackend.MySqlDateTimeFields | src/backends/nextcloud-todo/nextcloud-todo.tsx:11-22 | the text is the year, then month (0-based month plus one), day, hours, minutes and seconds, each as exactly two digits, separated by `-`, `-`, space, `:` and `:`; a four-digit year gives 19 characters |
| TodoBackend.Backend.constructor | src/backends/nextcloud-todo/nextcloud-todo.tsx:32-41 | the URL, login and password are the saved ones, or empty; in development a saved `https://host` prefix is replaced by `/api`; no API base is cached yet |
| TodoBackend.Backend.GetApiUrl | src/backends/nextcloud-todo/nextcloud-todo.tsx:43-68 | with a cached base the result is that base plus the path and no request is made; otherwise the four candidates are probed in order up to the first that answers, which is cached and used; when none answers the call fails with its message after four probes and nothing is cached |
| TodoBackend.Backend.TasksRequestUrl | src/backends/nextcloud-todo/nextcloud-todo.tsx:140-155 | the tasks URL is built on the stored URL, not the discovered base, with the parameters added in the source's order |
| TodoBackend.GetProjects | src/backends/nextcloud-todo/nextcloud-todo.tsx:70-85 | one project per API record, in order, each the record's view model; titles are kept and task counts are 0 |
| TodoBackend.GetProjectsIds | src/backends/nextcloud-todo/nextcloud-todo.tsx:70-85 | each id `getProjects` produces is text that parses back to its record's numeric id |
| TodoBackend.ToProjectId | src/backends/nextcloud-todo/nextcloud-todo.tsx:221-227 | the text id of a mapped project parses back to the API's id, and distinct API ids give distinct text ids |
| TodoBackend.ProjectsMapping | src/backends/nextcloud-todo/nextcloud-todo.tsx:108-132 | the dictionary maps each API id to its mapped project, a later record with the same id replacing an earlier one |
| TodoBackend.TaskParamsContents | src/backends/nextcloud-todo/nextcloud-todo.tsx:141-151 | `limit` is always 20; `projectId` appears exactly when the query has a non-empty one, and `offset` exactly when it is above 0; each appears once |
| TodoBackend.ParseDateOpt | src/backends/nextcloud-todo/nextcloud-todo.tsx:166-169 | a date is read exactly when the API text is present and non-empty |
| TodoBackend.CompletedIffCompletedAt | src/backends/nextcloud-todo/nextcloud-todo.tsx:168-169 | in both the list and the detail mapping, a task is completed exactly when it has a completion date, and exactly when the API record has a non-empty `completedAt` |
| TodoBackend.DetailTagsRoundTrip | src/backends/nextcloud-todo/nextcloud-todo.tsx:311 | a non-empty list of comma-free tags, sent comma-joined, comes back from `getTask` as the same list |
| TodoBackend.ListTagsRoundTrip | src/backends/nextcloud-todo/nextcloud-todo.tsx:170 | the same list comes back from `getTasks` when the tags are also trimmed |
| TodoBackend.TrimAllOfTrimmed | src/backends/nextcloud-todo/nextcloud-todo.tsx:170 | trimming tags that are already trimmed changes nothing |
| TodoBackend.MissingTags | src/backends/nextcloud-todo/nextcloud-todo.tsx:170 | missing tags are null in the list mapping and an empty list in the detail mapping |
| TodoBackend.FilterTasksSpec | src/backends/nextcloud-todo/nextcloud-todo.tsx:175-179 | filtering keeps the order and keeps exactly the tasks of the requested status, each as often as it occurs; ALL keeps everything |
| TodoBackend.SearchTasksRequest | src/backends/nextcloud-todo/nextcloud-todo.tsx:197 | the search's `getTasks` call asks only for the first page of 20 tasks, with no project |
| TodoBackend.SearchTasksSpec | src/backends/nextcloud-todo/nextcloud-todo.tsx:192-211 | the results are, in order, the tasks whose title or description contains the query case-insensitively, each as often as it occurs; the empty query keeps everything |
| TodoBackend.CreateTaskData | src/backends/nextcloud-todo/nextcloud-todo.tsx:263-276 | a refused draft gets the title message; an accepted one sends its own title, description and priority, a project id exactly when a project is given, the due date as MySQL date-time text of its local time, and the tags joined by commas |
| TodoBackend.CreatedTaskSpec | src/backends/nextcloud-todo/nextcloud-todo.tsx:282-293 | the created task keeps the server's id and the draft's project, is completed exactly when the server reports a completion date, has no tags when the server sends none, and reads back the draft's tags when they are non-empty and comma-free |
| TodoBackend.CreateTagsRoundTrip | src/backends/nextcloud-todo/nextcloud-todo.tsx:275 | tags sent with a new task (non-empty, comma-free) are the tags the detail view reads back from the stored task |
| TodoBackend.CreateTaskRejectsBlankTitle | src/backends/nextcloud-todo/nextcloud-todo.tsx:264-266 | a draft is refused exactly when its title is missing or made only of white space, in JavaScript's sense (every space separator and line terminator, U+3000 included) |
| Js.IdeographicSpace | src/backends/nextcloud-todo/nextcloud-todo.tsx:264 | the ideographic space U+3000 is white space as `trim` and `parseInt` see it: alone it trims to nothing, it trims off the end of a tag, and `parseInt` skips it before the digits |
| TodoBackend.CreateTaskProjectId | src/backends/nextcloud-todo/nextcloud-todo.tsx:270 | the project of a draft built from an API project is sent as that project's numeric id |
| TodoBackend.UpdateTaskPatchEmpty | src/backends/nextcloud-todo/nextcloud-todo.tsx:318-325 | a draft with no truthy field gives an empty body |
| TodoBackend.SetTaskCompletedPatch | src/backends/nextcloud-todo/nextcloud-todo.tsx:188-190 | completing a task sends the completion time and nothing else |
| TodoBackend.UpdateTagsRoundTrip | src/backends/nextcloud-todo/nextcloud-todo.tsx:324 | a non-empty list of comma-free tags sent by `updateTask` comes back from it as the same list |
| NewsBackend.FeedTypeCodes | src/backends/nextcloud-news/nextcloud-news.tsx:192-205 | a query for one feed has type 0; otherwise starred items are 2, a folder 1, and every other list 3; a query for one feed sends that feed's id |
| NewsBackend.ItemParamsContents | src/backends/nextcloud-news/nextcloud-news.tsx:115-124 | the item list asks for 20 items, newest first, under the feed id, else the folder id, else 0; read items are included unless the filter is UNREAD; an offset is sent only when positive |
| NewsBackend.NewsBackend.ItemsRequestUrl | src/backends/nextcloud-news/nextcloud-news.tsx:125 | the items URL is the backend URL, the v1-3 items path and the encoded parameters above |
| NewsBackend.NewsBackend.constructor | src/backends/nextcloud-news/nextcloud-news.tsx:14-18 | URL, login and password are the saved values, or empty when none is saved |
| NewsBackend.NewsBackend.FoldersById | src/backends/nextcloud-news/nextcloud-news.tsx:25-32 | the loop builds the id-to-folder dictionary, with an empty placeholder per folder and the later folder winning on a repeated id |
| NewsBackend.NewsBackend.FeedsMapping | src/backends/nextcloud-news/nextcloud-news.tsx:89-107 | the loop builds the id-to-feed dictionary of all feeds |
| NewsBackend.NewsBackend.FileFeed | src/backends/nextcloud-news/nextcloud-news.tsx:60-79 | one step files a feed: it opens its folder's group on first sight, appends the feed and adds its unread count, and fails when the folder is unknown |
| NewsBackend.NewsBackend.AddFeedsToFolders | src/backends/nextcloud-news/nextcloud-news.tsx:56-87 | the loop's result is the grouping of the feeds by folder, in `Object.values` order, or, when a feed names an unknown folder, the error "Network response was not ok" followed by the caught TypeError |
| NewsBackend.NewsBackend.GetFolders | src/backends/nextcloud-news/nextcloud-news.tsx:20-40 | the folders are the feeds grouped under the folders the API lists; a grouping error is caught and thrown again behind the same prefix |
| NewsBackend.GetFoldersOutcome | src/backends/nextcloud-news/nextcloud-news.tsx:20-40 | loading the folders fails exactly when a feed names an unlisted folder, and then with the message wrapped twice: prefix, "Error: ", prefix, TypeError text |
| NewsBackend.Groups | src/backends/nextcloud-news/nextcloud-news.tsx:85 | the values returned are, key by key, the group of that folder |
| NewsBackend.DistinctFolderIdsSpec | src/backends/nextcloud-news/nextcloud-news.tsx:60-68 | the dictionary's keys are exactly the folder ids of the feeds, each once |
| NewsBackend.ValuesOrderPermutes | src/backends/nextcloud-news/nextcloud-news.tsx:85 | `Object.values` visits every key exactly once (integer keys ascending, the others in insertion order) |
| NewsBackend.GroupFeedsOnePerFolder | src/backends/nextcloud-news/nextcloud-news.tsx:56-87 | the grouping fails exactly when a feed's folder is unknown; otherwise there is exactly one group per folder holding feeds, and none for an empty folder |
| NewsBackend.GroupMembers | src/backends/nextcloud-news/nextcloud-news.tsx:77 | a folder's group holds the feeds of that folder, in API order and with their multiplicity, and no other feed |
| NewsBackend.GroupAppend | src/backends/nextcloud-news/nextcloud-news.tsx:77-78 | one more feed changes only its own folder's group: the feed is appended and its unread count added |
| NewsBackend.GroupEmpty | src/backends/nextcloud-news/nextcloud-news.tsx:61-68 | a folder's group, before any of its feeds is filed, has the folder's id and name, no feeds and unread count 0 |
| NewsBackend.GroupsStep | src/backends/nextcloud-news/nextcloud-news.tsx:60-79 | each pass of the loop keeps the dictionary equal to the grouping of the feeds seen so far, with keys in order of first appearance |
| NewsBackend.UnknownFolder | src/backends/nextcloud-news/nextcloud-news.tsx:64-82 | a feed whose folder is neither grouped nor known makes the whole call fail with "Network response was not ok" followed by the TypeError that reading `.name` of undefined raises |
| NewsBackend.GroupsDone | src/backends/nextcloud-news/nextcloud-news.tsx:85 | after the last feed, `Object.values` of the dictionary is the grouping |
| NewsBackend.ObjectValuesOfGroups | src/backends/nextcloud-news/nextcloud-news.tsx:85 | values looked up by key are the groups of those keys |
| NewsBackend.GroupNamedAfterFolder | src/backends/nextcloud-news/nextcloud-news.tsx:62-64 | a group carries its folder's id as a string and the name of the folder with that id |
| NewsBackend.LastSrc | src/backends/nextcloud-news/nextcloud-news.tsx:209 | the greedy `[^>]+` settles on the last `src="…"` in range, and finds none only when there is none |
| NewsBackend.ImgFrom | src/backends/nextcloud-news/nextcloud-news.tsx:214 | a match found by the search is a real match of the pattern at or after the start |
| NewsBackend.ImgMatchRange | src/backends/nextcloud-news/nextcloud-news.tsx:209 | a match's `src="` lies inside the tag, before its first `>` |
| NewsBackend.MatchesAt | src/backends/nextcloud-news/nextcloud-news.tsx:209 | the matches with `<img` at a position are exactly the `src="…"` tails inside that tag |
| NewsBackend.ImgFromSpec | src/backends/nextcloud-news/nextcloud-news.tsx:214 | the search finds the leftmost `<img` that matches and, in it, the last `src`; it finds nothing exactly when nothing matches |
| NewsBackend.NoMatchAfterEnd | src/backends/nextcloud-news/nextcloud-news.tsx:214 | no match starts past the end of the body |
| NewsBackend.FirstImgSrcNone | src/backends/nextcloud-news/nextcloud-news.tsx:213-217 | the body yields no image exactly when the pattern matches nowhere in it |
| NewsBackend.FirstImgSrcSome | src/backends/nextcloud-news/nextcloud-news.tsx:214-216 | an image found in the body is the captured `src` of the leftmost matching tag: non-empty, without `"` or `>` |
| NewsBackend.ItemImageURLSpec | src/backends/nextcloud-news/nextcloud-news.tsx:208-222 | the thumbnail is a non-empty enclosure link, else a non-empty media thumbnail, else the body's first image, else empty |
| NewsBackend.GetFeedItems | src/backends/nextcloud-news/nextcloud-news.tsx:126-138 | one article per API item, in the same order |
| NewsBackend.GetFeedItemsSpec | src/backends/nextcloud-news/nextcloud-news.tsx:126-138 | an article keeps the item's id, is read exactly when the item is not unread, is dated in milliseconds, and has a feed exactly when a feed with its feed id is listed (the last such feed) |

## Left out

- Network I/O (`src/utils/request.ts`, every `fetch` and `api` call): each server answer is an input of the function that maps it, and the requests appear only as the URLs and bodies built for them.
- `deleteProject`, `deleteTask` and `deleteTaskFile` (src/backends/nextcloud-todo/nextcloud-todo.tsx:258-261, 348-351, 366-369): they call `api.delete`, which `src/utils/request.ts` does not define, so they have no behaviour to model.
- `getTaskFiles` and `addTaskFile` (src/backends/nextcloud-todo/nextcloud-todo.tsx:353-364): plain requests whose answers are passed on untouched.
- `createProject`, `getProject` and `updateProject` (src/backends/nextcloud-todo/nextcloud-todo.tsx:213-256): only the mapping of their answer, `TodoBackend.ToProject`, is modelled; the requests themselves are network I/O.
- `searchItems` and `setFeedArticleRead` (src/backends/nextcloud-news/nextcloud-news.tsx:146-188): the first maps its answer with the same item mapping as `getFeedItems` (`NewsBackend.MapItem`), the second is a bare request whose URL is the item id `ItemsList.Click` returns.
- `_getOptions` in both backends: the `Authorization` header and its base64 (`btoa`) encoding of the credentials are not modelled.
- Percent-encoding: `Js.ParamsString` renders `URLSearchParams` only for keys and values that need no escaping.
- Lower-casing: `Js.ToLower` maps the ASCII letters only; Unicode case mapping is not modelled.
- Dates: parsing the API's date strings and splitting an instant into local calendar fields are parameters (`parse`, `local`); the current time is a parameter too.
- TimeSince.BucketSpec: the source divides floating-point numbers before `Math.floor`; the model divides integers, which agrees except where doubles lose precision.
- TaskQueries.SortTasks: states sorted and a permutation, but not that tasks that compare equal keep their order, which JavaScript's stable `sort` guarantees.
- FeedsPage.LoadedPrefix: this lemma, `FeedsPage.CursorAfterPrefix` and `FeedsPage.LoadedAll` assume the server lists articles newest first, with positive and strictly decreasing ids; the source relies on this but does not check it.
- UserAuthForm.SchemaSpec: the URL check of the schema (`z.string().url()`) is a parameter `isUrl`.
- QueryClient: `handleServerError` (src/utils/handle-server-error.ts) is not part of this model; the model records that it is called.
- ItemsList.Click: the selected article is a copy of the clicked row rather than the same object, so aliasing between the two is not modelled; both are read after the click.
- Timers and debouncing: the debounced search of `src/components/search.tsx` and `src/components/search-dialog.tsx` and the scroll-restore timeouts of the feeds and tasks pages are timing only. The two timers of `FilterItemList` are events of their own (`InternalTimerFires`, `RestoreTimerFires`).
- The resizable-panel hooks (`src/hooks/use-resizable-panels.tsx`, `src/hooks/use-resizable-panels-flex.tsx`): floating-point layout over DOM rectangles.
- `formatDateSmart` (src/features/tasks/add-task-modal.tsx:33-49) and the `Intl` formatting of TaskDetail.tsx:34-42: locale and date-library formatting.
- The editor wrappers (`src/components/tiptap/index.tsx`, `src/components/tiptap.tsx`, the bubble and floating menus) and the popup DOM code of slash-extension.tsx:93-143; slash-command.tsx is not part of this model.
- The PWA, service-worker and online-status components, the routes, skeletons, layout shells, `resize-handle.tsx`, `FilterTaskList.tsx` (one DOM scroll threshold), `cn`, the React render tree of `main.tsx` and the workbox and manifest settings of `vite.config.ts`: rendering and configuration only.
- JavaScript's `null` and `undefined` are both `None`.
- `FeedType` and `FeedFilter` are imported from src/backends/types.ts, but the version of that file this model follows defines neither (it stops at the task types): both are inferred from their uses (src/context/feed-query-provider.tsx:14, src/backends/nextcloud-news/nextcloud-news.tsx:119 and 199) as FEED/FOLDER/STARRED and ALL/UNREAD. NewsBackend.FeedTypeCodes rests on `FeedFilter` having only those two values: a third value would get the code "0" without a feed id.
- AddTask.ProjectDroppedAsWritten: the page also passes the priority word (for instance "normal") where `createTask` expects a number; the request's priority field holds numbers only, so that as-written value is not represented and the as-written draft carries no priority.
- SidebarResize.ReloadKeepsWidth: widths are whole pixels; a fractional width saved as "250.5" is read back by `parseInt` as 250, so the round trip is stated for integer widths only.
- NewsBackend.UnknownFolder: the TypeError text is the wording of V8-based browsers; other engines word the same error differently, and the model fixes the V8 wording.
- The Todo backend module exports an instance, not a class (src/backends/nextcloud-todo/nextcloud-todo.tsx:372-373), yet the callers apply `new` to it: src/features/tasks/data/queries.ts:6 at module load, src/features/tasks/index.tsx:127 for every task page, src/features/tasks/TaskDetail.tsx:23, src/features/tasks/add-task-modal.tsx:59, src/features/tasks/add-task.tsx:40, 47 and 57, and src/components/layout/projects-nav-group.tsx:10. As written, each of these calls throws "TypeError: … is not a constructor" and no task request is ever made; the model follows the evident intent, one backend object whose methods these callers use.
- The stray `}` at src/backends/nextcloud-news/nextcloud-news.tsx:206 and the second declaration of `navigate` at src/features/tasks/index.tsx:30 are ignored: the model follows the evident intent.

## Findings

| source | as written | input that shows it | evidently intended | confidence | as-written member | corrected member |
|---|---|---|---|---|---|---|
| src/backends/nextcloud-todo/nextcloud-todo.tsx:175-179 | `getTasks` asks the server for twenty tasks with no status and filters them in the browser, and `getNextPageParam` (src/features/tasks/index.tsx:131-134) stops paging after any page shorter than twenty | the pending filter, with the server holding a completed task followed by twenty pending ones: the first page holds nineteen and the twentieth pending task is never loaded | paging goes on until every task of the status is loaded, as when the server applies the status | not executed | TasksPage.EarlyStopAsWritten | TasksPage.FilteredOnServer |
| src/features/tasks/add-task.tsx:83 | the page passes the project's id string as `project`, so `createTask` reads `task.project.id` as undefined and sends `parseInt(undefined)`, NaN, which JSON turns into null | a valid form whose project field is the loaded project "5" | the task is created in project 5, as the add-task dialog does | not executed | AddTask.ProjectDroppedAsWritten | AddTask.CorrectedKeepsProject |
