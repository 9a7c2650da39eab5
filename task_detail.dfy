/** The task detail pane: the priority label, the overdue mark, which
    controls are shown or enabled, and the completion button's loading
    state around the backend call. The current time is a parameter. */
module TaskDetail {
  import opened Wrappers
  import opened BackendTypes
  import Js
  import AddTaskModal

  /** A label and its colour class. */
  datatype PriorityLabel = PriorityLabel(text: string, color: string)

  /** `getPriorityLabel`: 1 Low, 2 Medium, 3 High, anything else None. */
  function GetPriorityLabel(priority: int): PriorityLabel {
    if priority == 1 then PriorityLabel("Low", "text-yellow-600")
    else if priority == 2 then PriorityLabel("Medium", "text-orange-600")
    else if priority == 3 then PriorityLabel("High", "text-red-600")
    else PriorityLabel("None", "text-gray-600")
  }

  /** Each of the three priorities has its own label, and "None" is given
      exactly to the priorities outside 1..3. */
  lemma PriorityLabelSpec(p: int, q: int)
    ensures GetPriorityLabel(p).text == "None" <==> !(1 <= p <= 3)
    ensures 1 <= p <= 3 && 1 <= q <= 3 && p != q ==> GetPriorityLabel(p) != GetPriorityLabel(q)
  {
  }

  /** A priority chosen in the add-task dialog is always shown with a real
      label, the word's own: urgent High, normal Medium, non-urgent Low. */
  lemma DialogPriorityLabel(word: string)
    ensures GetPriorityLabel(AddTaskModal.PriorityToNumber(word)).text != "None"
    ensures GetPriorityLabel(AddTaskModal.PriorityToNumber("urgent")).text == "High"
    ensures GetPriorityLabel(AddTaskModal.PriorityToNumber("normal")).text == "Medium"
    ensures GetPriorityLabel(AddTaskModal.PriorityToNumber("non-urgent")).text == "Low"
  {
    AddTaskModal.PriorityToNumberSpec(word);
  }

  /** The due date is shown in red: it is set, already past, and the task
      is not completed. */
  predicate Overdue(task: Task, now: int) {
    task.dueDate.Some? && task.dueDate.value < now && !task.completed
  }

  /** A completed task is never overdue, and an overdue task stays overdue
      as time passes. */
  lemma OverdueSpec(task: Task, now: int, later: int)
    ensures task.completed ==> !Overdue(task, now)
    ensures Overdue(task, now) && now <= later ==> Overdue(task, later)
    ensures task.dueDate.Some? && !task.completed && now > task.dueDate.value ==> Overdue(task, now)
  {
  }

  /** The "Complete Task" button is drawn. */
  predicate CompleteButtonShown(task: Task) {
    !task.completed
  }

  /** The round check button is disabled. */
  predicate ToggleDisabled(task: Task, isLoading: bool) {
    task.completed || isLoading
  }

  /** The tags section is drawn. */
  predicate TagsShown(task: Task) {
    task.tags.Some? && |task.tags.value| > 0
  }

  /** A completed task offers no way to complete it again; an open task
      offers both controls, enabled unless a completion is under way. */
  lemma ControlsSpec(task: Task, isLoading: bool)
    ensures task.completed ==> !CompleteButtonShown(task) && ToggleDisabled(task, isLoading)
    ensures !task.completed ==> CompleteButtonShown(task) && (ToggleDisabled(task, isLoading) <==> isLoading)
    ensures TagsShown(task) ==> task.tags.Some? && task.tags.value != []
    ensures task.tags == Some([]) || task.tags.None? ==> !TagsShown(task)
  {
  }

  /** How the backend call ended: done, or failed with an `Error`'s message
      (None for anything thrown that is not an `Error`). */
  datatype CallOutcome = Done | Failed(message: Option<string>)

  const AlertPrefix := "Error completing task: "

  /** The alert shown for a failed completion: the prefix, then the
      message, or "Unknown error" when there is none. */
  function FailureAlert(message: Option<string>): (r: string)
    ensures Js.StartsWith(r, AlertPrefix)
    ensures message.Some? ==> r[|AlertPrefix|..] == message.value
    ensures message.None? ==> r[|AlertPrefix|..] == "Unknown error"
  {
    AlertPrefix + (if message.Some? then message.value else "Unknown error")
  }

  /** The pane's loading flag, split at the backend call it waits for. */
  class TaskDetailState {
    var isLoading: bool

    constructor()
      ensures !isLoading
    {
      isLoading := false;
    }

    /** `handleCompleteToggle` up to the call: a completed task is left
        alone; otherwise loading starts and `setTaskCompleted` is called
        with the task's id as text. */
    method StartCompletion(task: Task) returns (call: Option<string>)
      modifies this
      ensures task.completed ==> call.None? && isLoading == old(isLoading)
      ensures !task.completed ==> call == Some(Js.IntToString(task.id)) && isLoading
    {
      if task.completed {
        return None;
      }
      isLoading := true;
      call := Some(Js.IntToString(task.id));
    }

    /** The rest of `handleCompleteToggle`: a failure is alerted, and
        loading ends in every case. */
    method FinishCompletion(outcome: CallOutcome) returns (alert: Option<string>)
      modifies this
      ensures !isLoading
      ensures outcome.Done? <==> alert.None?
      ensures outcome.Failed? ==> alert == Some(FailureAlert(outcome.message))
    {
      alert := None;
      if outcome.Failed? {
        alert := Some(FailureAlert(outcome.message));
      }
      isLoading := false;
    }
  }

  /** The id sent to `setTaskCompleted` reads back as the task's id. */
  lemma CompletionCallId(task: Task)
    ensures Js.ParseInt(Js.IntToString(task.id)) == Js.Num(task.id)
  {
    Js.ParseIntOfIntToString(task.id);
  }
}
