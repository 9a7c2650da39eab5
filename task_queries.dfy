/** The task list query: the comparator that orders pending tasks (due date
    first, then priority) and the options of the cached query that fetches
    them. */
module TaskQueries {
  import opened Wrappers
  import opened BackendTypes
  import Js
  import Lists
  import TodoBackend

  /** `priorityOrder[p] || 0`: the priorities 0 to 3 rank as themselves,
      any other priority ranks as 0. */
  function PriorityRank(p: int): (r: int)
    ensures 0 <= r <= 3
    ensures 0 <= p <= 3 ==> r == p
    ensures !(0 <= p <= 3) ==> r == 0
  {
    if p == 3 then 3 else if p == 2 then 2 else if p == 1 then 1 else 0
  }

  /** The comparator of `sortTasks`: negative when `a` goes first, positive
      when `b` goes first, zero when they tie. A due date is truthy exactly
      when it is present. */
  function Compare(a: Task, b: Task): int {
    if a.dueDate.Some? && b.dueDate.Some? && a.dueDate.value != b.dueDate.value then
      a.dueDate.value - b.dueDate.value
    else if a.dueDate.Some? && b.dueDate.None? then -1
    else if a.dueDate.None? && b.dueDate.Some? then 1
    else
      var pa, pb := PriorityRank(a.priority), PriorityRank(b.priority);
      if pa != pb then pb - pa else 0
  }

  /** The order the comparator induces: `a` may go before `b`. */
  predicate Le(a: Task, b: Task) {
    Compare(a, b) <= 0
  }

  /** An independent statement of the order, as a key compared
      lexicographically: dated tasks first, by due time ascending, then by
      priority rank descending. */
  function Key(t: Task): (int, int, int) {
    if t.dueDate.Some? then (0, t.dueDate.value, -PriorityRank(t.priority))
    else (1, 0, -PriorityRank(t.priority))
  }

  predicate KeyLe(x: (int, int, int), y: (int, int, int)) {
    x.0 < y.0 || (x.0 == y.0 && (x.1 < y.1 || (x.1 == y.1 && x.2 <= y.2)))
  }

  /** The comparator is the lexicographic order on the keys, and it
      returns 0 exactly when the keys are equal: same presence of a due
      date, same due time, same priority rank. */
  lemma CompareIsKeyOrder(a: Task, b: Task)
    ensures Le(a, b) <==> KeyLe(Key(a), Key(b))
    ensures Compare(a, b) == 0 <==> Key(a) == Key(b)
  {
  }

  /** A task with a due date goes before one without. */
  lemma DatedFirst(a: Task, b: Task)
    requires a.dueDate.Some? && b.dueDate.None?
    ensures Compare(a, b) < 0 && Compare(b, a) > 0
  {
  }

  /** Of two dated tasks with different due times, the earlier goes
      first. */
  lemma EarlierFirst(a: Task, b: Task)
    requires a.dueDate.Some? && b.dueDate.Some? && a.dueDate.value < b.dueDate.value
    ensures Compare(a, b) < 0 && Compare(b, a) > 0
  {
  }

  /** With equal or absent due dates the higher priority goes first. */
  lemma HigherPriorityFirst(a: Task, b: Task)
    requires a.dueDate == b.dueDate
    requires PriorityRank(a.priority) > PriorityRank(b.priority)
    ensures Compare(a, b) < 0 && Compare(b, a) > 0
  {
  }

  /** The comparator is antisymmetric: swapping the arguments flips the
      sign. */
  lemma CompareAntisymmetric(a: Task, b: Task)
    ensures Compare(a, b) < 0 <==> Compare(b, a) > 0
    ensures Compare(a, b) == 0 <==> Compare(b, a) == 0
  {
  }

  /** Any two tasks are ordered one way or the other. */
  lemma LeTotal(a: Task, b: Task)
    ensures Le(a, b) || Le(b, a)
  {
  }

  /** The order is transitive, so the comparator is a total preorder. */
  lemma LeTransitive(a: Task, b: Task, c: Task)
    requires Le(a, b) && Le(b, c)
    ensures Le(a, c)
  {
    CompareIsKeyOrder(a, b);
    CompareIsKeyOrder(b, c);
    CompareIsKeyOrder(a, c);
  }

  /** The tasks are in comparator order. */
  ghost predicate SortedTasks(s: seq<Task>) {
    forall k, l :: 0 <= k < l < |s| ==> Le(s[k], s[l])
  }

  /** The prefix `a[..i]` is in order except for the element at `j`, which
      is in order with everything after it. */
  ghost predicate SortedExcept(s: seq<Task>, i: int, j: int) {
    && 0 <= j <= i < |s|
    && (forall k, l :: 0 <= k < l <= i && k != j && l != j ==> Le(s[k], s[l]))
    && (forall l :: j < l <= i ==> Le(s[j], s[l]))
  }

  lemma ExceptStart(s: seq<Task>, i: int)
    requires 0 <= i < |s|
    requires SortedTasks(s[..i])
    ensures SortedExcept(s, i, i)
  {
    forall k, l | 0 <= k < l <= i && k != i && l != i
      ensures Le(s[k], s[l])
    {
      assert s[k] == s[..i][k] && s[l] == s[..i][l];
    }
  }

  /** Swapping the misplaced element with a predecessor that must go after
      it moves the gap one place down. */
  lemma ExceptSwap(s: seq<Task>, i: int, j: int)
    requires SortedExcept(s, i, j) && j > 0
    requires !Le(s[j - 1], s[j])
    ensures SortedExcept(s[j - 1 := s[j]][j := s[j - 1]], i, j - 1)
  {
    LeTotal(s[j - 1], s[j]);
  }

  /** Once the predecessor may go first, the prefix is in order. */
  lemma ExceptDone(s: seq<Task>, i: int, j: int)
    requires SortedExcept(s, i, j)
    requires j == 0 || Le(s[j - 1], s[j])
    ensures SortedTasks(s[..i + 1])
  {
    forall k | 0 <= k < j
      ensures Le(s[k], s[j])
    {
      if k < j - 1 {
        LeTransitive(s[k], s[j - 1], s[j]);
      }
    }
  }

  /** One pass of insertion: the element at `i` is swapped down past every
      element that must go after it. */
  method InsertDown(a: array<Task>, i: int)
    requires 0 <= i < a.Length
    requires SortedTasks(a[..i])
    modifies a
    ensures SortedTasks(a[..i + 1])
    ensures a[i + 1..] == old(a[i + 1..])
    ensures multiset(a[..]) == old(multiset(a[..]))
  {
    ExceptStart(a[..], i);
    var j := i;
    while j > 0 && Compare(a[j - 1], a[j]) > 0
      invariant SortedExcept(a[..], i, j)
      invariant a[i + 1..] == old(a[i + 1..])
      invariant multiset(a[..]) == old(multiset(a[..]))
    {
      ExceptSwap(a[..], i, j);
      a[j - 1], a[j] := a[j], a[j - 1];
      j := j - 1;
    }
    ExceptDone(a[..], i, j);
  }

  /** `sortTasks`: the array is reordered in place into comparator order,
      keeping every task. */
  method SortTasks(a: array<Task>)
    modifies a
    ensures SortedTasks(a[..])
    ensures multiset(a[..]) == old(multiset(a[..]))
  {
    var i := 0;
    while i < a.Length
      invariant 0 <= i <= a.Length
      invariant SortedTasks(a[..i])
      invariant multiset(a[..]) == old(multiset(a[..]))
    {
      InsertDown(a, i);
      i := i + 1;
    }
    assert a[..i] == a[..];
  }

  /** The cache key of `tasksQueryOptions`: the project id, or `all`. */
  datatype QueryKey = TasksKey(projectId: string)

  function TasksQueryKey(projectId: Option<string>): (k: QueryKey)
    ensures projectId.Some? ==> k.projectId == projectId.value
    ensures projectId.None? ==> k.projectId == "all"
  {
    TasksKey(projectId.GetOr("all"))
  }

  /** The query `tasksQueryOptions` sends: pending tasks of the project,
      at offset 0. */
  function TasksQuery(projectId: Option<string>): TaskQuery {
    TaskQuery(None, PendingFilter, projectId)
  }

  /** The list the query resolves to, before sorting. */
  function TasksQueryFetch(projectId: Option<string>, raw: seq<TodoBackend.NTTask>,
                           projects: map<int, Project>, parse: string -> int): seq<Task> {
    TodoBackend.GetTasks(TasksQuery(projectId), raw, projects, parse)
  }

  /** Two queries share a cache entry exactly when they ask for the same
      project, as long as no project id is the text `all`. */
  lemma TasksQueryKeyInjective(p: Option<string>, q: Option<string>)
    requires p.Some? ==> p.value != "all"
    requires q.Some? ==> q.value != "all"
    ensures TasksQueryKey(p) == TasksQueryKey(q) <==> p == q
  {
  }

  /** The backend's project ids are decimal numbers, never `all`. */
  lemma ProjectIdNotAll(n: int)
    ensures Js.IntToString(n) != "all"
  {
    var s := Js.IntToString(n);
    if n >= 0 {
      assert Js.IsDigit(s[0]);
    } else {
      assert s[0] == '-';
    }
  }

  /** The query keeps exactly the uncompleted tasks, in the order the
      backend lists them and each as often as it occurs. */
  lemma TasksQueryPending(projectId: Option<string>, raw: seq<TodoBackend.NTTask>,
                          projects: map<int, Project>, parse: string -> int, x: Task)
    ensures var mapped := seq(|raw|, i requires 0 <= i < |raw| => TodoBackend.MapListTask(raw[i], projects, parse));
      && Lists.IsSubsequence(TasksQueryFetch(projectId, raw, projects, parse), mapped)
      && multiset(TasksQueryFetch(projectId, raw, projects, parse))[x]
           == if x.completed then 0 else multiset(mapped)[x]
  {
    var mapped := seq(|raw|, i requires 0 <= i < |raw| => TodoBackend.MapListTask(raw[i], projects, parse));
    TodoBackend.FilterTasksSpec(mapped, PendingFilter, x);
  }
}
