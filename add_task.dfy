/** The "add task" page: a form whose project field holds a project id or
    the name of a project to create, submitted to `createTask`. The server's
    answers (the project it creates) are inputs. */
module AddTask {
  import opened Wrappers
  import opened BackendTypes
  import Js
  import Lists
  import TodoBackend
  import AddTaskModal

  type FormValues = AddTaskModal.FormValues

  /** The page's schema: a non-empty title, one of the priority words, and
      a project, which is required here. */
  predicate SchemaAccepts(v: FormValues) {
    |v.title| >= 1 && AddTaskModal.PriorityWord(v.priority) && v.project.Some?
  }

  /** The form's initial values: an empty title and the normal priority. */
  const Defaults := AddTaskModal.FormValues("", None, "normal", None, None)

  /** The blank form lacks a title and a project, and nothing else. */
  lemma DefaultsNeedTitleAndProject(title: string, project: string)
    ensures !SchemaAccepts(Defaults)
    ensures |title| >= 1 ==> SchemaAccepts(Defaults.(title := title, project := Some(project)))
  {
  }

  function HasId(id: string): Project -> bool {
    (p: Project) => p.id == id
  }

  /** `isNewProject`: no loaded project has this id. */
  predicate IsNewProject(projects: seq<Project>, id: string) {
    !Lists.Any(projects, HasId(id))
  }

  /** The test looks at ids only: a field holding the title of a loaded
      project, and no id, still names a new project. */
  lemma IsNewProjectSpec(projects: seq<Project>, id: string)
    ensures IsNewProject(projects, id) <==> forall k :: 0 <= k < |projects| ==> projects[k].id != id
    ensures ((exists k :: 0 <= k < |projects| && projects[k].title == id) &&
             (forall k :: 0 <= k < |projects| ==> projects[k].id != id)) ==> IsNewProject(projects, id)
  {
    if !IsNewProject(projects, id) {
      var k :| 0 <= k < |projects| && HasId(id)(projects[k]);
      assert projects[k].id == id;
    }
  }

  /** The project id the task is submitted with: the created project's id
      for a new name, the field itself for a loaded project. */
  function ResolvedProjectId(projects: seq<Project>, id: string, created: TodoBackend.NTProject): (r: string)
    ensures !IsNewProject(projects, id) ==> r == id
    ensures IsNewProject(projects, id) ==> r == TodoBackend.ToProject(created).id
  {
    if IsNewProject(projects, id) then TodoBackend.ToProject(created).id else id
  }

  /** `onSubmit`: with a valid form, the name of the project to create (if
      any) and the values passed to the task mutation, whose project is
      the resolved id; the rest of the form goes through unchanged. */
  method Submit(v: FormValues, projects: seq<Project>, created: TodoBackend.NTProject)
    returns (createdName: Option<string>, sent: Option<FormValues>)
    ensures !SchemaAccepts(v) ==> createdName.None? && sent.None?
    ensures SchemaAccepts(v) ==>
      && createdName == (if IsNewProject(projects, v.project.value) then v.project else None)
      && sent == Some(v.(project := Some(ResolvedProjectId(projects, v.project.value, created))))
  {
    if !SchemaAccepts(v) {
      return None, None;
    }
    var projectId := v.project.value;
    createdName := None;
    var isNewProject := !Lists.Any(projects, HasId(projectId));
    if isNewProject {
      createdName := Some(projectId);
      projectId := TodoBackend.ToProject(created).id;
    }
    sent := Some(v.(project := Some(projectId)));
  }

  // ------------------------------------------------------ the task request

  /** The `Partial<Task>` that `createTask` receives from this page as
      written. Its `project` is the id string, which is truthy when not
      empty; reading `id` (or `title`) of a string gives undefined, which
      `parseInt` reads as the text "undefined". The priority word cannot
      stand in the numeric priority field and is left out. */
  function AsWrittenDraft(sent: FormValues): TodoBackend.TaskDraft {
    TodoBackend.TaskDraft(
      Some(sent.title),
      if sent.project.Some? && sent.project.value != "" then Some(Project("undefined", "undefined", None, None, 0)) else None,
      sent.description, sent.dueDate, None, None, None)
  }

  /** As written, no task created from this page carries its project: the
      request `createTask` builds sends the id as NaN, which is serialised
      as null, whatever project the form names. */
  lemma ProjectDroppedAsWritten(v: FormValues, projects: seq<Project>, created: TodoBackend.NTProject,
                                local: int -> TodoBackend.Calendar)
    requires SchemaAccepts(v) && ResolvedProjectId(projects, v.project.value, created) != ""
    ensures var sent := v.(project := Some(ResolvedProjectId(projects, v.project.value, created)));
      var r := TodoBackend.CreateTaskData(AsWrittenDraft(sent), local);
      r.Ok? ==> r.value.projectId == Some(Js.NaN)
  {
    ParseIntUndefined();
  }

  /** `parseInt(undefined, 10)` reads the text "undefined": no digits. */
  lemma ParseIntUndefined()
    ensures Js.ParseInt("undefined") == Js.NaN
  {
    var s := "undefined";
    assert !Js.IsSpace(s[0]) && !Js.IsDigit(s[0]);
    assert Js.TrimStart(s) == s;
    assert Js.DigitPrefix(s) == [];
  }

  /** The project object the id stands for: the first loaded project with
      that id, or the created one. */
  function ResolvedProject(projects: seq<Project>, id: string, created: TodoBackend.NTProject): Project {
    match Lists.Find(projects, HasId(id))
    case Some(p) => p
    case None => TodoBackend.ToProject(created)
  }

  /** The draft `createTask` should be given: the resolved project itself
      and the priority as a number, as the dialog does. */
  function CorrectedDraft(v: FormValues, projects: seq<Project>, created: TodoBackend.NTProject): TodoBackend.TaskDraft
    requires v.project.Some?
  {
    TodoBackend.TaskDraft(Some(v.title), Some(ResolvedProject(projects, v.project.value, created)),
                          v.description, v.dueDate,
                          Some(AddTaskModal.PriorityToNumber(v.priority)), None, None)
  }

  /** With the corrected draft the request carries the resolved project id
      and the form's priority, title and description. */
  lemma CorrectedKeepsProject(v: FormValues, projects: seq<Project>, created: TodoBackend.NTProject,
                              local: int -> TodoBackend.Calendar)
    requires SchemaAccepts(v)
    ensures var r := TodoBackend.CreateTaskData(CorrectedDraft(v, projects, created), local);
      r.Ok? ==>
        && r.value.projectId == Some(Js.ParseInt(ResolvedProjectId(projects, v.project.value, created)))
        && (IsNewProject(projects, v.project.value) ==> r.value.projectId == Some(Js.Num(created.id)))
        && r.value.priority == Some(AddTaskModal.PriorityToNumber(v.priority))
        && r.value.title == v.title && r.value.description == v.description
  {
    var id := v.project.value;
    TodoBackend.ToProjectId(created, created);
    var i := Lists.FindIndex(projects, HasId(id));
    if i.None? {
      assert forall k :: 0 <= k < |projects| ==> !HasId(id)(projects[k]);
    } else {
      assert HasId(id)(projects[i.value]);
    }
  }
}
