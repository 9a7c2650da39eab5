/** The task list: the rows it draws, their title style, which row is
    selected, the priority bar and the empty-list message. */
module TasksList {
  import opened Wrappers
  import opened BackendTypes
  import TaskDetail
  import TimeSince

  /** `getTitleColor` of the task list. */
  function TitleColor(isSelected: bool, isCompleted: bool): string {
    if isSelected then "text-primary"
    else if isCompleted then "text-muted-foreground line-through"
    else "text-foreground"
  }

  /** Selection wins over completion; unselected titles are struck through
      exactly when completed; the three styles differ. */
  lemma TitleColorSpec(isSelected: bool, isCompleted: bool)
    ensures isSelected ==> TitleColor(isSelected, isCompleted) == "text-primary"
    ensures !isSelected ==> (TitleColor(isSelected, isCompleted) == "text-muted-foreground line-through" <==> isCompleted)
    ensures TitleColor(isSelected, isCompleted) == "text-foreground" <==> !isSelected && !isCompleted
  {
  }

  /** A row is selected when its task has the selected task's id. */
  predicate IsSelected(selected: Option<Task>, task: Task) {
    selected.Some? && selected.value.id == task.id
  }

  /** With distinct ids at most one row is selected, and selecting a listed
      task selects its row. */
  lemma SelectionSpec(tasks: seq<Task>, selected: Option<Task>, i: int, j: int)
    requires forall a, b :: 0 <= a < b < |tasks| ==> tasks[a].id != tasks[b].id
    requires 0 <= i < |tasks| && 0 <= j < |tasks|
    ensures IsSelected(selected, tasks[i]) && IsSelected(selected, tasks[j]) ==> i == j
    ensures IsSelected(Some(tasks[i]), tasks[i])
    ensures selected.None? ==> !IsSelected(selected, tasks[i])
  {
  }

  /** The priority bar's colour class, drawn only for a positive priority. */
  function PriorityBar(priority: int): Option<string> {
    if priority > 0 then
      Some(if priority == 1 then "bg-yellow-400"
           else if priority == 2 then "bg-orange-400"
           else if priority == 3 then "bg-red-400"
           else "bg-gray-400")
    else None
  }

  /** The hue a priority is drawn in, here and in the detail pane. */
  function Hue(priority: int): string {
    if priority == 1 then "yellow" else if priority == 2 then "orange"
    else if priority == 3 then "red" else "gray"
  }

  /** The bar is drawn exactly for positive priorities, and in the hue of
      the detail pane's label; a priority of zero or less has a gray label
      but no bar. */
  lemma PriorityBarSpec(priority: int)
    ensures PriorityBar(priority).None? <==> priority <= 0
    ensures priority > 0 ==> PriorityBar(priority) == Some("bg-" + Hue(priority) + "-400")
    ensures TaskDetail.GetPriorityLabel(priority).color == "text-" + Hue(priority) + "-600"
  {
    var h := Hue(priority);
    if priority == 1 {
      assert "bg-" + h + "-400" == "bg-yellow-400" && "text-" + h + "-600" == "text-yellow-600";
    } else if priority == 2 {
      assert "bg-" + h + "-400" == "bg-orange-400" && "text-" + h + "-600" == "text-orange-600";
    } else if priority == 3 {
      assert "bg-" + h + "-400" == "bg-red-400" && "text-" + h + "-600" == "text-red-600";
    } else {
      assert "bg-" + h + "-400" == "bg-gray-400" && "text-" + h + "-600" == "text-gray-600";
    }
  }

  /** One task's row: its key, title and title style, the priority bar,
      the completion icon, the project chip and the age label. */
  datatype Row = Row(
    key: int,
    title: string,
    titleClass: string,
    selected: bool,
    priorityBar: Option<string>,
    checkIcon: bool,
    projectTitle: Option<string>,
    age: Option<string>)

  /** What the list draws inside its scroll area. */
  datatype Element = TaskRow(row: Row) | EmptyMessage

  /** The row `tasks.map` draws for one task at time `now`. */
  function RowOf(task: Task, selected: Option<Task>, now: int): Row {
    var isSelected := IsSelected(selected, task);
    Row(
      task.id,
      task.title,
      TitleColor(isSelected, task.completed),
      isSelected,
      PriorityBar(task.priority),
      task.completed,
      if task.project.Some? then Some(task.project.value.title) else None,
      if task.createdAt.Some? then Some(TimeSince.TimeSinceShortText(now, task.createdAt.value)) else None)
  }

  /** The list's content: one row per task, in order, followed by "No
      tasks found" when there is no task. */
  function Render(tasks: seq<Task>, selected: Option<Task>, now: int): seq<Element> {
    seq(|tasks|, i requires 0 <= i < |tasks| => TaskRow(RowOf(tasks[i], selected, now)))
    + (if |tasks| == 0 then [EmptyMessage] else [])
  }

  /** Either the message alone or the rows alone: the message appears
      exactly for an empty list, and otherwise there is one row per task,
      in the list's order, keyed by the task's id and showing its title. */
  lemma RenderSpec(tasks: seq<Task>, selected: Option<Task>, now: int)
    ensures var r := Render(tasks, selected, now);
      && (EmptyMessage in r <==> tasks == [])
      && (tasks == [] ==> r == [EmptyMessage])
      && (tasks != [] ==> |r| == |tasks| && forall i :: 0 <= i < |r| ==> r[i].TaskRow?)
      && (forall i :: 0 <= i < |tasks| ==>
            r[i].TaskRow? && r[i].row.key == tasks[i].id && r[i].row.title == tasks[i].title)
  {
    var r := Render(tasks, selected, now);
    if tasks != [] {
      assert r == seq(|tasks|, i requires 0 <= i < |tasks| => TaskRow(RowOf(tasks[i], selected, now)));
      assert forall i :: 0 <= i < |r| ==> r[i] != EmptyMessage;
    }
  }

  /** With distinct ids exactly the selected task's row is highlighted, in
      the primary style; a completed task shows the check icon. */
  lemma RenderSelection(tasks: seq<Task>, k: int, now: int)
    requires forall a, b :: 0 <= a < b < |tasks| ==> tasks[a].id != tasks[b].id
    requires 0 <= k < |tasks|
    ensures var r := Render(tasks, Some(tasks[k]), now);
      forall i :: 0 <= i < |tasks| ==>
        && (r[i].row.selected <==> i == k)
        && (i == k ==> r[i].row.titleClass == "text-primary")
        && (r[i].row.checkIcon <==> tasks[i].completed)
  {
  }
}
