/** The Nextcloud TodoTasks backend: discovery and caching of the API base
    URL, the query parameters of the task list, the mapping of API records
    to view models, client-side filtering and search, and the request bodies
    of task creation and update. Every HTTP response is an input. */
module TodoBackend {
  import opened Wrappers
  import Js
  import Lists
  import opened BackendTypes
  import DevProxy

  /** Tasks requested per page. */
  const TasksPerPage := 20

  /** The message of the error thrown when no candidate base URL answers. */
  const NoEndpointMessage := "Could not find a valid API endpoint."

  /** The message of the error thrown for a missing or blank title. */
  const BlankTitleMessage := "Task title must be a non-empty string."

  /** A project as the API returns it. */
  datatype NTProject = NTProject(
    id: int,
    title: string,
    icon: Option<string>,
    description: Option<string>)

  /** A task as the API returns it; its dates are strings. */
  datatype NTTask = NTTask(
    id: int,
    projectId: int,
    title: string,
    description: Option<string>,
    priority: int,
    createdAt: string,
    dueDate: Option<string>,
    completedAt: Option<string>,
    tags: Option<string>)

  // ------------------------------------------------------ MySQL DATETIME

  /** The local calendar fields of a date, as `getFullYear`, `getMonth`
      (0-based), `getDate`, `getHours`, `getMinutes` and `getSeconds`
      return them. */
  datatype Calendar = Calendar(
    year: int, month: int, day: int, hours: int, minutes: int, seconds: int)

  predicate ValidCalendar(c: Calendar) {
    0 <= c.month < 12 && 1 <= c.day <= 31 && 0 <= c.hours < 24
    && 0 <= c.minutes < 60 && 0 <= c.seconds < 60
  }

  /** `num.toString().padStart(2, '0')`. */
  function Pad(n: int): string {
    Js.PadTwo(Js.IntToString(n))
  }

  /** `toMySqlDateTime`: `YYYY-MM-DD HH:MM:SS` with a 1-based month. */
  function ToMySqlDateTime(c: Calendar): string {
    Js.IntToString(c.year) + "-" + Pad(c.month + 1) + "-" + Pad(c.day)
    + " " + Pad(c.hours) + ":" + Pad(c.minutes) + ":" + Pad(c.seconds)
  }

  /** `s` is exactly two decimal digits spelling `n`. */
  predicate TwoDigits(s: string, n: int) {
    |s| == 2 && Js.AllDigits(s) && Js.DigitsValue(s) == n
  }

  lemma PadTwoDigits(n: int)
    requires 0 <= n < 100
    ensures TwoDigits(Pad(n), n)
  {
    var p := Pad(n);
    Js.NatToStringValue(n);
    if n < 10 {
      var c := Js.DigitChar(n);
      assert Js.NatToString(n) == [c];
      assert p == ['0', c];
      assert p[..1] == ['0'] && p[..1][..0] == [];
      assert Js.DigitsValue(['0']) == 0;
      assert Js.DigitsValue(p) == Js.DigitValue(c);
    } else {
      assert Js.NatToString(n / 10) == [Js.DigitChar(n / 10)];
      assert |Js.NatToString(n)| == 2;
      assert p == Js.NatToString(n);
    }
  }

  /** Every field after the year is two digits at a fixed offset behind the
      year, the month is the 0-based month plus one, and the separators are
      `-`, `-`, space, `:` and `:`. A four-digit year gives 19 characters. */
  lemma MySqlDateTimeFields(c: Calendar)
    requires ValidCalendar(c)
    ensures var r, y := ToMySqlDateTime(c), Js.IntToString(c.year);
      && |r| == |y| + 15
      && r[..|y|] == y
      && r[|y|] == '-' && r[|y| + 3] == '-' && r[|y| + 6] == ' '
      && r[|y| + 9] == ':' && r[|y| + 12] == ':'
      && TwoDigits(r[|y| + 1..|y| + 3], c.month + 1)
      && TwoDigits(r[|y| + 4..|y| + 6], c.day)
      && TwoDigits(r[|y| + 7..|y| + 9], c.hours)
      && TwoDigits(r[|y| + 10..|y| + 12], c.minutes)
      && TwoDigits(r[|y| + 13..|y| + 15], c.seconds)
      && (1000 <= c.year <= 9999 ==> |r| == 19)
  {
    var y := Js.IntToString(c.year);
    PadTwoDigits(c.month + 1);
    PadTwoDigits(c.day);
    PadTwoDigits(c.hours);
    PadTwoDigits(c.minutes);
    PadTwoDigits(c.seconds);
    Layout(y, Pad(c.month + 1), Pad(c.day), Pad(c.hours), Pad(c.minutes), Pad(c.seconds));
    if 1000 <= c.year <= 9999 {
      FourDigitYear(c.year);
    }
  }

  /** Where the pieces of a `Y-MM-DD HH:MM:SS` text sit. */
  lemma Layout(y: string, mo: string, d: string, h: string, mi: string, s: string)
    requires |mo| == 2 && |d| == 2 && |h| == 2 && |mi| == 2 && |s| == 2
    ensures var r := y + "-" + mo + "-" + d + " " + h + ":" + mi + ":" + s;
      && |r| == |y| + 15 && r[..|y|] == y
      && r[|y|] == '-' && r[|y| + 3] == '-' && r[|y| + 6] == ' '
      && r[|y| + 9] == ':' && r[|y| + 12] == ':'
      && r[|y| + 1..|y| + 3] == mo && r[|y| + 4..|y| + 6] == d
      && r[|y| + 7..|y| + 9] == h && r[|y| + 10..|y| + 12] == mi
      && r[|y| + 13..|y| + 15] == s
  {
    var t := ['-', mo[0], mo[1], '-', d[0], d[1], ' ', h[0], h[1], ':', mi[0], mi[1], ':', s[0], s[1]];
    assert t == "-" + mo + "-" + d + " " + h + ":" + mi + ":" + s;
    var r := y + "-" + mo + "-" + d + " " + h + ":" + mi + ":" + s;
    assert r == y + t;
    assert r[|y| + 1..|y| + 3] == t[1..3] == mo;
    assert r[|y| + 4..|y| + 6] == t[4..6] == d;
    assert r[|y| + 7..|y| + 9] == t[7..9] == h;
    assert r[|y| + 10..|y| + 12] == t[10..12] == mi;
    assert r[|y| + 13..|y| + 15] == t[13..15] == s;
  }

  lemma FourDigitYear(year: int)
    requires 1000 <= year <= 9999
    ensures |Js.IntToString(year)| == 4
  {
    assert year / 10 / 10 == year / 100 && year / 100 / 10 == year / 1000;
    assert |Js.NatToString(year / 1000)| == 1;
    assert |Js.NatToString(year / 100)| == 2;
    assert |Js.NatToString(year / 10)| == 3;
  }

  // ------------------------------------------------- the backend object

  /** `localStorage.getItem(key) ?? ''`. */
  function Stored(storage: map<string, string>, key: string): string {
    if key in storage then storage[key] else ""
  }

  /** The four base URLs probed, in order, when none is cached yet. */
  function CandidateBases(url: string): seq<string> {
    [ url + "/apps/todotasks/api/v1",
      url + "/apps/todotasks/api",
      url + "/index.php/apps/todotasks/api/v1",
      url + "/ocs/v2.php/apps/todotasks/api/v1" ]
  }

  /** The URL requested to probe a candidate base. */
  function ProbeUrl(base: string): string {
    base + "/projects"
  }

  /** The index of the first candidate whose probe succeeds. */
  function FirstReachable(bases: seq<string>, reachable: set<string>): Option<nat> {
    Lists.FindIndex(bases, b => ProbeUrl(b) in reachable)
  }

  class Backend {
    var url: string
    var login: string
    var password: string
    /** The discovered API base URL, once a probe has succeeded. */
    var apiUrl: Option<string>

    /** Reads the credentials saved at sign-in; in development the stored
        `https://host` prefix is swapped for the `/api` proxy. */
    constructor(storage: map<string, string>, dev: bool)
      ensures login == Stored(storage, "backend-login")
      ensures password == Stored(storage, "backend-password")
      ensures url == (if dev && Stored(storage, "backend-url") != ""
                      then DevProxy.DevUrlRewrite(Stored(storage, "backend-url"))
                      else Stored(storage, "backend-url"))
      ensures apiUrl == None
    {
      var stored := Stored(storage, "backend-url");
      url := if dev && stored != "" then DevProxy.DevUrlRewrite(stored) else stored;
      login := Stored(storage, "backend-login");
      password := Stored(storage, "backend-password");
      apiUrl := None;
    }

    /** `_getApiUrl(path)`: with a cached base, that base plus `path` and no
        request. Otherwise the candidates are probed in order (`probed`
        lists the requests made); the first that answers is cached and
        used, and when none answers the call fails and nothing is cached.
        `reachable` is the set of URLs whose GET succeeds. */
    method GetApiUrl(path: string, reachable: set<string>) returns (r: Result<string>, probed: seq<string>)
      modifies this
      ensures url == old(url) && login == old(login) && password == old(password)
      ensures Present(old(apiUrl)) ==>
        r == Ok(old(apiUrl).value + path) && probed == [] && apiUrl == old(apiUrl)
      ensures !Present(old(apiUrl)) ==>
        var bases := CandidateBases(url);
        match FirstReachable(bases, reachable)
        case Some(i) =>
          && apiUrl == Some(bases[i]) && r == Ok(bases[i] + path)
          && |probed| == i + 1
          && (forall j :: 0 <= j <= i ==> probed[j] == ProbeUrl(bases[j]))
        case None =>
          && apiUrl == old(apiUrl) && r == Err(NoEndpointMessage)
          && |probed| == 4
          && (forall j :: 0 <= j < 4 ==> probed[j] == ProbeUrl(bases[j]))
      ensures r.Ok? ==> Present(apiUrl)
    {
      if apiUrl.Some? && apiUrl.value != "" {
        return Ok(apiUrl.value + path), [];
      }
      var bases := CandidateBases(url);
      probed := [];
      var i := 0;
      while i < |bases|
        invariant 0 <= i <= |bases|
        invariant |probed| == i
        invariant forall j :: 0 <= j < i ==> probed[j] == ProbeUrl(bases[j])
        invariant forall j :: 0 <= j < i ==> ProbeUrl(bases[j]) !in reachable
        invariant apiUrl == old(apiUrl)
      {
        probed := probed + [ProbeUrl(bases[i])];
        if ProbeUrl(bases[i]) in reachable {
          apiUrl := Some(bases[i]);
          assert |bases[i]| > 0 by {
            assert |bases[i]| >= |"/apps/todotasks/api"|;
          }
          return Ok(bases[i] + path), probed;
        }
        i := i + 1;
      }
      r := Err(NoEndpointMessage);
    }

    /** The URL `getTasks` requests: the parameters are added one by one,
        on the stored URL rather than the discovered base. */
    method TasksRequestUrl(projectId: Option<string>, offset: int) returns (u: string)
      ensures u == TasksUrl(url, TaskParams(projectId, offset))
    {
      var params: seq<(string, string)> := [];
      if Present(projectId) {
        params := params + [("projectId", projectId.value)];
      }
      if offset > 0 {
        params := params + [("offset", Js.IntToString(offset))];
      }
      params := params + [("limit", Js.IntToString(TasksPerPage))];
      assert params == TaskParams(projectId, offset);
      u := url + "/apps/todotasks/api/v1/tasks";
      if |params| > 0 {
        u := u + "?" + Js.ParamsString(params);
      }
    }
  }

  // ------------------------------------------------------------ projects

  /** The view model of an API project; task counts are not computed. */
  function ToProject(p: NTProject): Project {
    Project(Js.IntToString(p.id), p.title, p.icon, p.description, 0)
  }

  /** `getProjects`: every project in the API's order, with its id as a
      string that parses back to the numeric id and a task count of 0. */
  function GetProjects(raw: seq<NTProject>): (r: seq<Project>)
    ensures |r| == |raw|
    ensures forall i :: 0 <= i < |r| ==> r[i] == ToProject(raw[i])
    ensures forall i :: 0 <= i < |r| ==> r[i].title == raw[i].title && r[i].taskCount == 0
  {
    if raw == [] then [] else [ToProject(raw[0])] + GetProjects(raw[1..])
  }

  /** Every id `getProjects` produces parses back to its API project's id. */
  lemma GetProjectsIds(raw: seq<NTProject>)
    ensures forall i :: 0 <= i < |raw| ==> Js.ParseInt(GetProjects(raw)[i].id) == Js.Num(raw[i].id)
  {
    forall i | 0 <= i < |raw|
      ensures Js.ParseInt(GetProjects(raw)[i].id) == Js.Num(raw[i].id)
    {
      ToProjectId(raw[i], raw[i]);
    }
  }

  /** The string id of the view model parses back to the API's numeric id,
      and distinct API ids give distinct view-model ids. */
  lemma ToProjectId(p: NTProject, q: NTProject)
    ensures Js.ParseInt(ToProject(p).id) == Js.Num(p.id)
    ensures ToProject(p).id == ToProject(q).id ==> p.id == q.id
  {
    Js.ParseIntOfIntToString(p.id);
    if ToProject(p).id == ToProject(q).id {
      Js.IntToStringInjective(p.id, q.id);
    }
  }

  /** The id-to-project dictionary that `_getProjectsMapping` builds: a
      later project with the same id overwrites an earlier one. */
  function ProjectsMap(projects: seq<NTProject>): map<int, Project> {
    Lists.Index(projects, (p: NTProject) => p.id, ToProject)
  }

  /** `_getProjectsMapping`, the `forEach` that fills the dictionary. */
  method ProjectsMapping(projects: seq<NTProject>) returns (m: map<int, Project>)
    ensures m == ProjectsMap(projects)
  {
    m := map[];
    var i := 0;
    while i < |projects|
      invariant 0 <= i <= |projects|
      invariant m == ProjectsMap(projects[..i])
    {
      assert projects[..i + 1][..i] == projects[..i];
      m := m[projects[i].id := ToProject(projects[i])];
      i := i + 1;
    }
    assert projects[..i] == projects;
  }

  // --------------------------------------------------------------- tasks

  /** The query parameters of `getTasks`, in insertion order: `projectId`
      when the query has a non-empty one, `offset` when positive, and
      always `limit`. An absent offset behaves as 0. */
  function TaskParams(projectId: Option<string>, offset: int): seq<(string, string)> {
    (if Present(projectId) then [("projectId", projectId.value)] else [])
    + (if offset > 0 then [("offset", Js.IntToString(offset))] else [])
    + [("limit", Js.IntToString(TasksPerPage))]
  }

  /** The task list URL: built on the stored URL, not the discovered base. */
  function TasksUrl(url: string, params: seq<(string, string)>): string {
    url + "/apps/todotasks/api/v1/tasks" + "?" + Js.ParamsString(params)
  }

  /** `limit` is always 20; `projectId` and `offset` appear exactly when
      given and meaningful, each once. */
  lemma TaskParamsContents(projectId: Option<string>, offset: int)
    ensures var ps := TaskParams(projectId, offset);
      && Js.ParamGet(ps, "limit") == Some("20")
      && Js.ParamGet(ps, "projectId") == (if Present(projectId) then projectId else None)
      && Js.ParamGet(ps, "offset") == (if offset > 0 then Some(Js.IntToString(offset)) else None)
      && |ps| == 1 + (if Present(projectId) then 1 else 0) + (if offset > 0 then 1 else 0)
  {
    assert Js.IntToString(TasksPerPage) == "20" by {
      assert Js.NatToString(20) == Js.NatToString(2) + [Js.DigitChar(0)];
    }
    var ps := TaskParams(projectId, offset);
    var lim := ("limit", "20");
    assert Js.ParamGet([lim], "limit") == Some("20");
    assert Js.ParamGet([lim], "offset") == None && Js.ParamGet([lim], "projectId") == None;
    if Present(projectId) && offset > 0 {
      assert ps == [("projectId", projectId.value), ("offset", Js.IntToString(offset)), lim];
      assert ps[1..] == [("offset", Js.IntToString(offset)), lim];
      assert ps[1..][1..] == [lim];
    } else if Present(projectId) {
      assert ps == [("projectId", projectId.value), lim];
      assert ps[1..] == [lim];
    } else if offset > 0 {
      assert ps == [("offset", Js.IntToString(offset)), lim];
      assert ps[1..] == [lim];
    } else {
      assert ps == [lim];
    }
  }

  /** A nullable API string that is present and non-empty, parsed as a
      date by `parse`. */
  function ParseDateOpt(s: Option<string>, parse: string -> int): (r: Option<int>)
    ensures r.Some? <==> Present(s)
  {
    if Present(s) then Some(parse(s.value)) else None
  }

  /** Every tag trimmed. */
  function TrimAll(tags: seq<string>): seq<string> {
    seq(|tags|, i requires 0 <= i < |tags| => Js.Trim(tags[i]))
  }

  /** The mapping of `getTasks`: the project from the dictionary, dates only
      when present, completion from `completedAt`, and the tags split on
      `,` and trimmed, or null without tags. `parse` is `new Date(s)`. */
  function MapListTask(t: NTTask, projects: map<int, Project>, parse: string -> int): Task {
    Task(
      t.id,
      if t.projectId in projects then Some(projects[t.projectId]) else None,
      t.title,
      t.description,
      t.priority,
      if t.createdAt != "" then Some(parse(t.createdAt)) else None,
      ParseDateOpt(t.dueDate, parse),
      Present(t.completedAt),
      ParseDateOpt(t.completedAt, parse),
      if Present(t.tags) then Some(TrimAll(Js.Split(t.tags.value, ','))) else None)
  }

  /** The mapping of `getTask` and `updateTask`: like the list mapping, but
      the creation date is always parsed and the tags are split without
      trimming, an empty list standing in for missing tags. */
  function MapDetailTask(t: NTTask, projects: map<int, Project>, parse: string -> int): Task {
    Task(
      t.id,
      if t.projectId in projects then Some(projects[t.projectId]) else None,
      t.title,
      t.description,
      t.priority,
      Some(parse(t.createdAt)),
      ParseDateOpt(t.dueDate, parse),
      Present(t.completedAt),
      ParseDateOpt(t.completedAt, parse),
      Some(if Present(t.tags) then Js.Split(t.tags.value, ',') else []))
  }

  /** A mapped task is completed exactly when it carries a completion date,
      and exactly when the API record has a non-empty `completedAt`. */
  lemma CompletedIffCompletedAt(t: NTTask, projects: map<int, Project>, parse: string -> int)
    ensures var m := MapListTask(t, projects, parse);
      (m.completed <==> m.completedAt.Some?) && (m.completed <==> Present(t.completedAt))
    ensures var m := MapDetailTask(t, projects, parse);
      (m.completed <==> m.completedAt.Some?) && (m.completed <==> Present(t.completedAt))
  {
  }

  /** The tags of a request are `tags.join(',')`. */
  function JoinTags(tags: seq<string>): string {
    Js.Join(tags, ',')
  }

  predicate CommaFree(tags: seq<string>) {
    forall k :: 0 <= k < |tags| ==> ',' !in tags[k]
  }

  /** A tag without white space at either end. */
  predicate Trimmed(tag: string) {
    tag != [] ==> !Js.IsSpace(tag[0]) && !Js.IsSpace(tag[|tag| - 1])
  }

  lemma JoinTagsNonEmpty(tags: seq<string>)
    requires |tags| > 1 || (|tags| == 1 && tags[0] != "")
    ensures JoinTags(tags) != ""
  {
    if |tags| > 1 {
      assert |Js.Join(tags, ',')| >= |tags[0] + [',']|;
    }
  }

  /** Tags sent comma-joined come back from `getTask` as the same list when
      the list is not empty and no tag holds a comma. */
  lemma DetailTagsRoundTrip(t: NTTask, tags: seq<string>, projects: map<int, Project>, parse: string -> int)
    requires |tags| > 1 || (|tags| == 1 && tags[0] != "")
    requires CommaFree(tags)
    requires t.tags == Some(JoinTags(tags))
    ensures MapDetailTask(t, projects, parse).tags == Some(tags)
  {
    JoinTagsNonEmpty(tags);
    Js.SplitJoin(tags, ',');
  }

  /** The same holds for `getTasks` when the tags are also trimmed. */
  lemma ListTagsRoundTrip(t: NTTask, tags: seq<string>, projects: map<int, Project>, parse: string -> int)
    requires |tags| > 1 || (|tags| == 1 && tags[0] != "")
    requires CommaFree(tags)
    requires forall k :: 0 <= k < |tags| ==> Trimmed(tags[k])
    requires t.tags == Some(JoinTags(tags))
    ensures MapListTask(t, projects, parse).tags == Some(tags)
  {
    JoinTagsNonEmpty(tags);
    Js.SplitJoin(tags, ',');
    TrimAllOfTrimmed(tags);
  }

  lemma TrimAllOfTrimmed(tags: seq<string>)
    requires forall k :: 0 <= k < |tags| ==> Trimmed(tags[k])
    ensures TrimAll(tags) == tags
  {
    forall k | 0 <= k < |tags|
      ensures TrimAll(tags)[k] == tags[k]
    {
      Js.TrimOfTrimmed(tags[k]);
    }
  }

  /** Missing tags are null in the list and empty in the detail view. */
  lemma MissingTags(t: NTTask, projects: map<int, Project>, parse: string -> int)
    requires !Present(t.tags)
    ensures MapListTask(t, projects, parse).tags == None
    ensures MapDetailTask(t, projects, parse).tags == Some([])
  {
  }

  /** Whether the status filter keeps a task. */
  predicate Keeps(f: TaskFilter, t: Task) {
    match f
    case AllFilter => true
    case PendingFilter => !t.completed
    case CompletedFilter => t.completed
  }

  /** The status filter applied at the end of `getTasks`. */
  function FilterTasks(tasks: seq<Task>, f: TaskFilter): seq<Task> {
    match f
    case PendingFilter => Lists.Filter(tasks, (t: Task) => !t.completed)
    case CompletedFilter => Lists.Filter(tasks, (t: Task) => t.completed)
    case AllFilter => tasks
  }

  /** Filtering keeps the order, keeps exactly the tasks of the requested
      status (every one, as often as it occurs), and ALL keeps everything. */
  lemma FilterTasksSpec(tasks: seq<Task>, f: TaskFilter, x: Task)
    ensures Lists.IsSubsequence(FilterTasks(tasks, f), tasks)
    ensures multiset(FilterTasks(tasks, f))[x] == if Keeps(f, x) then multiset(tasks)[x] else 0
    ensures f == AllFilter ==> FilterTasks(tasks, f) == tasks
  {
    match f
    case PendingFilter =>
      Lists.FilterIsSubsequence(tasks, (t: Task) => !t.completed);
      Lists.FilterCount(tasks, (t: Task) => !t.completed, x);
    case CompletedFilter =>
      Lists.FilterIsSubsequence(tasks, (t: Task) => t.completed);
      Lists.FilterCount(tasks, (t: Task) => t.completed, x);
    case AllFilter =>
      SubsequenceRefl(tasks);
  }

  /** The filter applied to two windows is the filter of both together. */
  lemma FilterTasksConcat(a: seq<Task>, b: seq<Task>, f: TaskFilter)
    ensures FilterTasks(a + b, f) == FilterTasks(a, f) + FilterTasks(b, f)
  {
    match f
    case PendingFilter => Lists.FilterConcat(a, b, (t: Task) => !t.completed);
    case CompletedFilter => Lists.FilterConcat(a, b, (t: Task) => t.completed);
    case AllFilter =>
  }

  /** The filter never lengthens a list, and when it keeps the length it
      dropped nothing. */
  lemma FilterTasksLength(tasks: seq<Task>, f: TaskFilter)
    ensures |FilterTasks(tasks, f)| <= |tasks|
    ensures |FilterTasks(tasks, f)| == |tasks| ==> FilterTasks(tasks, f) == tasks
  {
    match f
    case PendingFilter =>
      if |FilterTasks(tasks, f)| == |tasks| {
        Lists.FilterKeepsAll(tasks, (t: Task) => !t.completed);
      }
    case CompletedFilter =>
      if |FilterTasks(tasks, f)| == |tasks| {
        Lists.FilterKeepsAll(tasks, (t: Task) => t.completed);
      }
    case AllFilter =>
  }

  lemma {:induction false} SubsequenceRefl(s: seq<Task>)
    ensures Lists.IsSubsequence(s, s)
  {
    if s != [] {
      SubsequenceRefl(s[1..]);
    }
  }

  /** What `getTasks(query, offset)` returns for the API's answer `raw`. */
  function GetTasks(query: TaskQuery, raw: seq<NTTask>, projects: map<int, Project>, parse: string -> int): seq<Task> {
    FilterTasks(seq(|raw|, i requires 0 <= i < |raw| => MapListTask(raw[i], projects, parse)), query.taskFilter)
  }

  /** The client-side search test: the title, or a non-empty description,
      contains the query, both lower-cased. */
  predicate SearchMatches(t: Task, content: string) {
    Js.Includes(Js.ToLower(t.title), Js.ToLower(content))
    || (Present(t.description) && Js.Includes(Js.ToLower(t.description.value), Js.ToLower(content)))
  }

  /** `searchTasks(content)` over the tasks `getTasks` returned. */
  function SearchTasks(content: string, tasks: seq<Task>): seq<Task> {
    Lists.Filter(tasks, (t: Task) => SearchMatches(t, content))
  }

  /** The search runs on one `getTasks(ALL, 0)` call, whose request is for
      the first page of 20 tasks only and without a project. */
  lemma SearchTasksRequest()
    ensures TaskParams(None, 0) == [("limit", "20")]
  {
    assert Js.IntToString(TasksPerPage) == "20" by {
      assert Js.NatToString(20) == Js.NatToString(2) + [Js.DigitChar(0)];
    }
  }

  /** Search results are the matching tasks, in order, each kept as often
      as it occurs; the empty query matches everything. */
  lemma SearchTasksSpec(content: string, tasks: seq<Task>, x: Task)
    ensures Lists.IsSubsequence(SearchTasks(content, tasks), tasks)
    ensures multiset(SearchTasks(content, tasks))[x]
      == if SearchMatches(x, content) then multiset(tasks)[x] else 0
    ensures content == "" ==> SearchTasks(content, tasks) == tasks
  {
    Lists.FilterIsSubsequence(tasks, (t: Task) => SearchMatches(t, content));
    Lists.FilterCount(tasks, (t: Task) => SearchMatches(t, content), x);
    if content == "" {
      forall i | 0 <= i < |tasks|
        ensures SearchMatches(tasks[i], content)
      {
        Js.IncludesEmpty(Js.ToLower(tasks[i].title));
      }
      Lists.FilterAll(tasks, (t: Task) => SearchMatches(t, content));
    }
  }

  // --------------------------------------------------- create and update

  /** A `Partial<Task>` as the forms pass it: absent fields are None. */
  datatype TaskDraft = TaskDraft(
    title: Option<string>,
    project: Option<Project>,
    description: Option<string>,
    dueDate: Option<int>,
    priority: Option<int>,
    tags: Option<seq<string>>,
    completed: Option<bool>)

  /** The JSON body of `createTask`; None fields are left out. */
  datatype NewTaskData = NewTaskData(
    projectId: Option<Js.Number>,
    title: string,
    description: Option<string>,
    dueDate: Option<string>,
    priority: Option<int>,
    tags: Option<string>)

  /** `createTask`'s validation and request body. A missing or blank title
      is refused before any request. `local` gives a date's local fields. */
  function CreateTaskData(d: TaskDraft, local: int -> Calendar): (r: Result<NewTaskData>)
    ensures r.Err? ==> r.message == BlankTitleMessage
    ensures r.Ok? ==> d.title == Some(r.value.title)
    ensures r.Ok? ==> r.value.description == d.description && r.value.priority == d.priority
    ensures r.Ok? ==> (r.value.projectId.Some? <==> d.project.Some?)
    ensures r.Ok? ==> r.value.dueDate == if d.dueDate.Some? then Some(ToMySqlDateTime(local(d.dueDate.value))) else None
    ensures r.Ok? ==> r.value.tags == if d.tags.Some? then Some(JoinTags(d.tags.value)) else None
  {
    if d.title.None? || Js.Trim(d.title.value) == "" then Err(BlankTitleMessage)
    else Ok(NewTaskData(
      if d.project.Some? then Some(Js.ParseInt(d.project.value.id)) else None,
      d.title.value,
      d.description,
      if d.dueDate.Some? then Some(ToMySqlDateTime(local(d.dueDate.value))) else None,
      d.priority,
      if d.tags.Some? then Some(JoinTags(d.tags.value)) else None))
  }

  /** The title check refuses exactly the missing titles and the titles made
      only of white space. */
  lemma CreateTaskRejectsBlankTitle(d: TaskDraft, local: int -> Calendar)
    ensures CreateTaskData(d, local).Err? <==>
      (d.title.None? || forall i :: 0 <= i < |d.title.value| ==> Js.IsSpace(d.title.value[i]))
  {
    if d.title.Some? {
      Js.TrimEmptyIffBlank(d.title.value);
    }
  }

  /** The project of a draft built from an API project is sent back as that
      project's numeric id. */
  lemma CreateTaskProjectId(d: TaskDraft, p: NTProject, local: int -> Calendar)
    requires d.project == Some(ToProject(p))
    requires CreateTaskData(d, local).Ok?
    ensures CreateTaskData(d, local).value.projectId == Some(Js.Num(p.id))
  {
    ToProjectId(p, p);
  }

  /** The task `createTask` returns: the draft's project, and the server's
      record for the rest. */
  function MapCreatedTask(t: NTTask, d: TaskDraft, parse: string -> int): Task {
    Task(
      t.id, d.project, t.title, t.description, t.priority,
      Some(parse(t.createdAt)),
      ParseDateOpt(t.dueDate, parse),
      Present(t.completedAt),
      ParseDateOpt(t.completedAt, parse),
      Some(if Present(t.tags) then Js.Split(t.tags.value, ',') else []))
  }

  /** The created task keeps the server's id and the draft's project, is
      completed exactly when the server gives a completion date, has no
      tags when the server gives none, and reads the draft's tags back
      when they were sent as a non-empty list of comma-free tags. */
  lemma CreatedTaskSpec(t: NTTask, d: TaskDraft, parse: string -> int, local: int -> Calendar)
    requires CreateTaskData(d, local).Ok?
    ensures var m := MapCreatedTask(t, d, parse);
      && m.id == t.id && m.project == d.project
      && (m.completed <==> Present(t.completedAt))
      && (m.completedAt.Some? <==> m.completed)
      && (!Present(t.tags) ==> m.tags == Some([]))
    ensures d.tags.Some? && CommaFree(d.tags.value)
            && (|d.tags.value| > 1 || (|d.tags.value| == 1 && d.tags.value[0] != ""))
            && t.tags == CreateTaskData(d, local).value.tags
            ==> MapCreatedTask(t, d, parse).tags == d.tags
  {
    if d.tags.Some? && CommaFree(d.tags.value)
       && (|d.tags.value| > 1 || (|d.tags.value| == 1 && d.tags.value[0] != ""))
       && t.tags == CreateTaskData(d, local).value.tags {
      JoinTagsNonEmpty(d.tags.value);
      Js.SplitJoin(d.tags.value, ',');
    }
  }

  /** Tags given to `createTask` come back from `getTask` as the same list,
      for a non-empty list of comma-free tags. */
  lemma CreateTagsRoundTrip(d: TaskDraft, local: int -> Calendar,
                            t: NTTask, projects: map<int, Project>, parse: string -> int)
    requires CreateTaskData(d, local).Ok?
    requires d.tags.Some? && CommaFree(d.tags.value)
    requires |d.tags.value| > 1 || (|d.tags.value| == 1 && d.tags.value[0] != "")
    requires t.tags == CreateTaskData(d, local).value.tags
    ensures MapDetailTask(t, projects, parse).tags == d.tags
  {
    DetailTagsRoundTrip(t, d.tags.value, projects, parse);
  }

  /** The JSON body of `updateTask`; None fields are left out. */
  datatype TaskPatch = TaskPatch(
    title: Option<string>,
    description: Option<string>,
    dueDate: Option<string>,
    priority: Option<int>,
    tags: Option<string>,
    completedAt: Option<string>)

  /** `updateTask`'s request body: only the truthy fields of the draft, the
      completion flag becoming a `completedAt` of `nowIso`. */
  function UpdateTaskPatch(d: TaskDraft, nowIso: string, local: int -> Calendar): TaskPatch {
    TaskPatch(
      if Present(d.title) then d.title else None,
      if Present(d.description) then d.description else None,
      if d.dueDate.Some? then Some(ToMySqlDateTime(local(d.dueDate.value))) else None,
      if d.priority.Some? && d.priority.value != 0 then d.priority else None,
      if d.tags.Some? then Some(JoinTags(d.tags.value)) else None,
      if d.completed == Some(true) then Some(nowIso) else None)
  }

  /** A draft with no truthy field gives an empty body. */
  lemma UpdateTaskPatchEmpty(d: TaskDraft, nowIso: string, local: int -> Calendar)
    requires !Present(d.title) && !Present(d.description) && d.dueDate.None?
    requires (d.priority.None? || d.priority == Some(0)) && d.tags.None?
    requires d.completed != Some(true)
    ensures UpdateTaskPatch(d, nowIso, local) == TaskPatch(None, None, None, None, None, None)
  {
  }

  /** `setTaskCompleted(id)` is `updateTask(id, { completed: true })`. */
  function CompletedDraft(): TaskDraft {
    TaskDraft(None, None, None, None, None, None, Some(true))
  }

  /** Completing a task sends the completion time and nothing else. */
  lemma SetTaskCompletedPatch(nowIso: string, local: int -> Calendar)
    ensures UpdateTaskPatch(CompletedDraft(), nowIso, local)
      == TaskPatch(None, None, None, None, None, Some(nowIso))
  {
  }

  /** Tags sent by `updateTask` come back from it as the same list, for a
      non-empty list of comma-free tags. */
  lemma UpdateTagsRoundTrip(d: TaskDraft, nowIso: string, local: int -> Calendar,
                            t: NTTask, projects: map<int, Project>, parse: string -> int)
    requires d.tags.Some? && CommaFree(d.tags.value)
    requires |d.tags.value| > 1 || (|d.tags.value| == 1 && d.tags.value[0] != "")
    requires t.tags == UpdateTaskPatch(d, nowIso, local).tags
    ensures MapDetailTask(t, projects, parse).tags == d.tags
  {
    DetailTagsRoundTrip(t, d.tags.value, projects, parse);
  }
}
