/** The "add task" dialog: its form, the priority words it offers, how the
    project field picks a loaded project or names a new one, and the task
    it submits. The server's answers (the project it creates, whether it
    accepts the task) are inputs. */
module AddTaskModal {
  import opened Wrappers
  import opened BackendTypes
  import Js
  import Lists
  import TodoBackend

  /** `priorityToNumber`: urgent 3, normal 2, non-urgent 1, and 2 for any
      other word. */
  function PriorityToNumber(priority: string): int {
    if priority == "urgent" then 3
    else if priority == "normal" then 2
    else if priority == "non-urgent" then 1
    else 2
  }

  /** The words the form's priority menu offers. */
  predicate PriorityWord(priority: string) {
    priority == "urgent" || priority == "normal" || priority == "non-urgent"
  }

  /** Every word maps into 1..3, the three offered words to three different
      numbers in their order of urgency, and an unknown word like the
      default one. */
  lemma PriorityToNumberSpec(priority: string)
    ensures 1 <= PriorityToNumber(priority) <= 3
    ensures PriorityToNumber("non-urgent") < PriorityToNumber("normal") < PriorityToNumber("urgent")
    ensures !PriorityWord(priority) ==> PriorityToNumber(priority) == PriorityToNumber("normal")
    ensures PriorityToNumber(priority) == 3 <==> priority == "urgent"
    ensures PriorityToNumber(priority) == 1 <==> priority == "non-urgent"
  {
  }

  /** The form's fields. `dueDate` is epoch milliseconds. */
  datatype FormValues = FormValues(
    title: string,
    dueDate: Option<int>,
    priority: string,
    description: Option<string>,
    project: Option<string>)

  /** The schema: a non-empty title and one of the three priority words;
      the other fields are optional. */
  predicate SchemaAccepts(v: FormValues) {
    |v.title| >= 1 && PriorityWord(v.priority)
  }

  /** The form's initial values, also restored after a task is created. */
  const Defaults := FormValues("", None, "normal", Some(""), Some(""))

  /** The blank form is refused only for its title: typing any title makes
      it acceptable. */
  lemma DefaultsNeedTitle(title: string)
    ensures !SchemaAccepts(Defaults)
    ensures |title| >= 1 ==> SchemaAccepts(Defaults.(title := title))
  {
  }

  /** What the project field leads to. */
  datatype ProjectChoice = NoProject | Existing(project: Project) | CreateNamed(name: string)

  function IdOrTitle(identifier: string): Project -> bool {
    (p: Project) => p.id == identifier || p.title == identifier
  }

  /** `onSubmit`'s project resolution: an empty field means no project; a
      loaded project whose id or title equals the field is used; otherwise a
      project of that name is to be created. */
  function ResolveProject(identifier: Option<string>, projects: seq<Project>): (r: ProjectChoice)
    ensures r.Existing? ==> r.project in projects
  {
    if identifier.None? || identifier.value == "" then NoProject
    else match Lists.FindIndex(projects, IdOrTitle(identifier.value))
      case Some(i) => Existing(projects[i])
      case None => CreateNamed(identifier.value)
  }

  /** The three outcomes, each exactly when it applies; a match is the first
      loaded project whose id or title is the field. */
  lemma ResolveProjectSpec(identifier: Option<string>, projects: seq<Project>)
    ensures ResolveProject(identifier, projects).NoProject? <==>
              identifier.None? || identifier.value == ""
    ensures ResolveProject(identifier, projects).CreateNamed? <==>
              identifier.Some? && identifier.value != "" &&
              forall k :: 0 <= k < |projects| ==>
                projects[k].id != identifier.value && projects[k].title != identifier.value
    ensures ResolveProject(identifier, projects).CreateNamed? ==>
              ResolveProject(identifier, projects).name == identifier.value
    ensures ResolveProject(identifier, projects).Existing? ==>
              exists k :: 0 <= k < |projects| && projects[k] == ResolveProject(identifier, projects).project &&
                (projects[k].id == identifier.value || projects[k].title == identifier.value) &&
                forall j :: 0 <= j < k ==>
                  projects[j].id != identifier.value && projects[j].title != identifier.value
  {
    if identifier.Some? && identifier.value != "" {
      var x := identifier.value;
      var r := Lists.FindIndex(projects, IdOrTitle(x));
      if r.Some? {
        var k := r.value;
        assert IdOrTitle(x)(projects[k]);
        assert forall j :: 0 <= j < k ==> !IdOrTitle(x)(projects[j]);
      } else {
        assert forall k :: 0 <= k < |projects| ==> !IdOrTitle(x)(projects[k]);
      }
    }
  }

  /** `taskToCreate`: the form's fields, the priority as a number and the
      resolved project. */
  function TaskToCreate(v: FormValues, project: Option<Project>): TodoBackend.TaskDraft {
    TodoBackend.TaskDraft(Some(v.title), project, v.description, v.dueDate,
                          Some(PriorityToNumber(v.priority)), None, None)
  }

  /** What a submission does: nothing when the schema refuses the form;
      otherwise possibly a project to create (named `createdName`; the
      server answers with the record `created`, which `createProject`
      turns into a project like `getProjects` does) and the task request
      `createTask` builds or refuses. */
  datatype Outcome = Invalid | Submitted(createdName: Option<string>, body: Result<TodoBackend.NewTaskData>)

  function SubmitOutcome(v: FormValues, projects: seq<Project>, created: TodoBackend.NTProject,
                         local: int -> TodoBackend.Calendar): Outcome {
    if !SchemaAccepts(v) then Invalid
    else
      var choice := ResolveProject(v.project, projects);
      Submitted(if choice.CreateNamed? then Some(choice.name) else None,
                TodoBackend.CreateTaskData(TaskToCreate(v, ChoiceProject(choice, created)), local))
  }

  /** The project a resolution stands for; a created one is mapped from
      the server's record. */
  function ChoiceProject(choice: ProjectChoice, created: TodoBackend.NTProject): Option<Project> {
    match choice
    case NoProject => None
    case Existing(p) => Some(p)
    case CreateNamed(_) => Some(TodoBackend.ToProject(created))
  }

  /** The request carries the form's title, description and priority
      number, and the project id of the resolved project: none for an empty
      field, the first matching loaded project, or the server's id of the
      one created for an unknown name (which is then the only creation). */
  lemma SubmitSpec(v: FormValues, projects: seq<Project>, created: TodoBackend.NTProject,
                   local: int -> TodoBackend.Calendar)
    ensures SubmitOutcome(v, projects, created, local).Invalid? <==> !SchemaAccepts(v)
    ensures var o := SubmitOutcome(v, projects, created, local);
      o.Submitted? && o.body.Ok? ==>
        && o.body.value.title == v.title
        && o.body.value.description == v.description
        && o.body.value.priority == Some(PriorityToNumber(v.priority))
        && (match ResolveProject(v.project, projects)
            case NoProject => o.createdName.None? && o.body.value.projectId.None?
            case Existing(p) => o.createdName.None? && o.body.value.projectId == Some(Js.ParseInt(p.id))
            case CreateNamed(name) =>
              o.createdName == Some(name) && name == v.project.value &&
              o.body.value.projectId == Some(Js.Num(created.id)))
  {
    ResolveProjectSpec(v.project, projects);
    TodoBackend.ToProjectId(created, created);
  }

  /** A title of spaces passes the form's schema but is refused by
      `createTask`, so no task is created and the dialog stays open. */
  lemma BlankTitlePassesForm(v: FormValues, projects: seq<Project>, created: TodoBackend.NTProject,
                             local: int -> TodoBackend.Calendar)
    requires v.title == " " && PriorityWord(v.priority)
    ensures SchemaAccepts(v)
    ensures SubmitOutcome(v, projects, created, local).Submitted?
    ensures SubmitOutcome(v, projects, created, local).body.Err?
  {
    TodoBackend.CreateTaskRejectsBlankTitle(TaskToCreate(v, ChoiceProject(ResolveProject(v.project, projects), created)), local);
  }

  /** The dialog: whether it is open and what its form holds. */
  class AddTaskDialog {
    var open: bool
    var values: FormValues

    constructor()
      ensures !open && values == Defaults
    {
      open := false;
      values := Defaults;
    }

    /** The trigger or the close button. */
    method SetOpen(o: bool)
      modifies this
      ensures open == o && values == old(values)
    {
      open := o;
    }

    /** Editing the form. */
    method Edit(v: FormValues)
      modifies this
      ensures values == v && open == old(open)
    {
      values := v;
    }

    /** `form.handleSubmit(onSubmit)`. When the task request is built and
        the server `accepted` it, the dialog closes and the form is reset;
        otherwise nothing changes. */
    method Submit(projects: seq<Project>, created: TodoBackend.NTProject, local: int -> TodoBackend.Calendar,
                  accepted: bool) returns (outcome: Outcome)
      modifies this
      ensures outcome == SubmitOutcome(old(values), projects, created, local)
      ensures outcome.Submitted? && outcome.body.Ok? && accepted ==> !open && values == Defaults
      ensures !(outcome.Submitted? && outcome.body.Ok? && accepted) ==>
                open == old(open) && values == old(values)
    {
      if !SchemaAccepts(values) {
        return Invalid;
      }
      var project: Option<Project> := None;
      var createdName: Option<string> := None;
      var choice := ResolveProject(values.project, projects);
      if choice.Existing? {
        project := Some(choice.project);
      } else if choice.CreateNamed? {
        createdName := Some(choice.name);
        project := Some(TodoBackend.ToProject(created));
      }
      assert project == ChoiceProject(choice, created);
      var body := TodoBackend.CreateTaskData(TaskToCreate(values, project), local);
      outcome := Submitted(createdName, body);
      if body.Ok? && accepted {
        open := false;
        values := Defaults;
      }
    }
  }
}
