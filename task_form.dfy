/**
 * The create/edit task form: its field record, how an edited task populates
 * it, field-wise change, and the blank-title check on submit.
 */
module TaskForm {
  import opened Wrappers
  import opened JsValues
  import opened JsStrings
  import opened TaskModel

  datatype FormData = FormData(title: string, description: string, assignedTo: string, status: string)

  /** The form's inputs, by their `name` attribute. */
  datatype FormField = TitleField | DescriptionField | AssignedToField | StatusField

  /** The values the status selector offers when the form is given no options of its own. */
  const DEFAULT_STATUS_OPTIONS: seq<string> := ["todo", "inprogress", "done"]

  /** The state of a fresh form: every text empty, status "todo". */
  const INITIAL: FormData := FormData("", "", "", "todo")

  function FieldValue(f: FormData, field: FormField): string {
    match field
    case TitleField => f.title
    case DescriptionField => f.description
    case AssignedToField => f.assignedTo
    case StatusField => f.status
  }

  /** `{...formData, [name]: value}`: the named field takes the value, the others are kept. */
  function WithField(f: FormData, field: FormField, value: string): (r: FormData)
    ensures FieldValue(r, field) == value
    ensures forall other :: other != field ==> FieldValue(r, other) == FieldValue(f, other)
  {
    match field
    case TitleField => f.(title := value)
    case DescriptionField => f.(description := value)
    case AssignedToField => f.(assignedTo := value)
    case StatusField => f.(status := value)
  }

  /**
   * The form populated from a task being edited: a missing text field
   * becomes "", and a missing or empty status becomes "todo".
   */
  function FromTask(t: Task): (r: FormData)
    ensures r.title == t.title.GetOr("")
    ensures r.description == t.description.GetOr("")
    ensures r.assignedTo == t.assignedTo.GetOr("")
    ensures Truthy(t.status) ==> r.status == t.status.value
    ensures !Truthy(t.status) ==> r.status == "todo"
  {
    FormData(OrElse(t.title, ""), OrElse(t.description, ""), OrElse(t.assignedTo, ""), OrElse(t.status, "todo"))
  }

  class TaskFormState {
    var formData: FormData

    constructor ()
      ensures formData == INITIAL
    {
      formData := INITIAL;
    }

    /** The effect run when the `task` prop changes: an edited task replaces the whole form. */
    method Populate(task: Option<Task>)
      modifies this
      ensures task.Some? ==> formData == FromTask(task.value)
      ensures task.None? ==> formData == old(formData)
    {
      if task.Some? {
        formData := FromTask(task.value);
      }
    }

    method OnChange(field: FormField, value: string)
      modifies this
      ensures formData == WithField(old(formData), field, value)
    {
      formData := WithField(formData, field, value);
    }

    /**
     * Submit: a title made only of whitespace (or empty) stops the
     * submission; otherwise the form data goes to `onSubmit` as held,
     * untrimmed.
     */
    method HandleSubmit() returns (submitted: Option<FormData>)
      ensures Blank(formData.title) ==> submitted == None
      ensures !Blank(formData.title) ==> submitted == Some(formData)
    {
      TrimEmptyIffBlank(formData.title);
      if Trim(formData.title) == [] {
        return None;
      }
      submitted := Some(formData);
    }
  }
}
