/**
  The task form: its field values, the load-from-task effect, single-field
  edits, and the submit handler that guards on a blank title and turns empty
  optional fields into absent ones.
 */
module TaskForm {
  import Text
  import opened TaskTypes

  /** `formData`: every field is a string, the optional ones `""` when unset. */
  datatype FormData = FormData(
    title: string,
    description: string,
    status: string,
    priority: string,
    dueDate: string,
    category: string,
    assignedTo: string)

  /** The field names `handleChange` is called with. */
  datatype Field = Title | Description | Status | Priority | DueDate | Category | AssignedTo

  /** The initial `formData`: status `todo`, priority `medium`, every other field empty. */
  function InitialForm(): (f: FormData)
    ensures Get(f, Status) == Todo && Get(f, Priority) == Medium
    ensures forall field :: field != Status && field != Priority ==> Get(f, field) == ""
  {
    FormData("", "", Todo, Medium, "", "", "")
  }

  function Get(f: FormData, field: Field): string {
    match field
    case Title => f.title
    case Description => f.description
    case Status => f.status
    case Priority => f.priority
    case DueDate => f.dueDate
    case Category => f.category
    case AssignedTo => f.assignedTo
  }

  /** `handleChange(field, value)`: sets that field and leaves every other field as it was. */
  function Change(f: FormData, field: Field, value: string): (r: FormData)
    ensures Get(r, field) == value
    ensures forall g :: g != field ==> Get(r, g) == Get(f, g)
  {
    match field
    case Title => f.(title := value)
    case Description => f.(description := value)
    case Status => f.(status := value)
    case Priority => f.(priority := value)
    case DueDate => f.(dueDate := value)
    case Category => f.(category := value)
    case AssignedTo => f.(assignedTo := value)
  }

  /** A later change of a field overrides an earlier one; writing a field's own value is a no-op. */
  lemma ChangeLastWriteWins(f: FormData, field: Field, a: string, b: string)
    ensures Change(Change(f, field, a), field, b) == Change(f, field, b)
    ensures Change(f, field, Get(f, field)) == f
  {
  }

  /**
    The load-from-task effect: a task copies its title, description, status and
    priority into the form and its absent optional fields become `""`; no task
    leaves the form as it is.
   */
  function Load(f: FormData, task: Option<Task>): (r: FormData)
    ensures task.None? ==> r == f
    ensures task.Some? ==>
      var t := task.value;
      && r.title == t.title && r.description == t.description
      && r.status == t.status && r.priority == t.priority
      && r.dueDate == OrEmpty(t.dueDate)
      && r.category == OrEmpty(t.category)
      && r.assignedTo == OrEmpty(t.assignedTo)
  {
    match task
    case None => f
    case Some(t) =>
      FormData(t.title, t.description, t.status, t.priority,
               OrEmpty(t.dueDate), OrEmpty(t.category), OrEmpty(t.assignedTo))
  }

  /** `value || undefined` on a form string. */
  function AbsentIfEmpty(value: string): (r: Option<string>)
    ensures r.None? <==> value == ""
    ensures r.Some? ==> r.value == value
  {
    if value == "" then None else Some(value)
  }

  /** The title guard: `!title.trim()`. */
  predicate IsBlankTitle(title: string) {
    Text.Trim(title) == ""
  }

  /**
    `handleSubmit`: emits nothing when the title is empty or white space only;
    otherwise emits the form with title, description, status and priority as
    typed (untrimmed) and each empty optional field absent.
   */
  function Submit(f: FormData): (r: Option<TaskData>)
    ensures r.None? <==> Text.IsBlank(f.title)
    ensures r.Some? ==>
      && r.value.title == f.title && r.value.description == f.description
      && r.value.status == f.status && r.value.priority == f.priority
      && IsNormalData(r.value)
      && (r.value.dueDate.None? <==> f.dueDate == "")
      && (r.value.category.None? <==> f.category == "")
      && (r.value.assignedTo.None? <==> f.assignedTo == "")
      && (r.value.dueDate.Some? ==> r.value.dueDate.value == f.dueDate)
      && (r.value.category.Some? ==> r.value.category.value == f.category)
      && (r.value.assignedTo.Some? ==> r.value.assignedTo.value == f.assignedTo)
  {
    if IsBlankTitle(f.title) then None
    else
      Some(TaskData(f.title, f.description, f.status, f.priority,
                    AbsentIfEmpty(f.dueDate), AbsentIfEmpty(f.category), AbsentIfEmpty(f.assignedTo)))
  }

  /**
    The untouched initial form submits nothing; giving it a non-blank title
    submits a `todo`, `medium` task with an empty description and no optional
    fields.
   */
  lemma InitialFormSubmit(title: string)
    ensures Submit(InitialForm()).None?
    ensures !Text.IsBlank(title) ==>
      Submit(Change(InitialForm(), Title, title)) == Some(TaskData(title, "", Todo, Medium, None, None, None))
  {
  }

  /**
    Loading a task with a non-blank title and normal optional fields and
    submitting without edits emits exactly that task's editable fields.
   */
  lemma LoadThenSubmit(f: FormData, t: Task)
    requires !Text.IsBlank(t.title)
    requires IsNormalTask(t)
    ensures Submit(Load(f, Some(t))) == Some(DataOf(t))
  {
  }

  /**
    Conversely, what a form with a non-blank title submits, once stored on any
    task and loaded back, reproduces that form exactly.
   */
  lemma SubmitThenLoad(f: FormData, g: FormData, t: Task)
    requires !Text.IsBlank(f.title)
    ensures Submit(f).Some?
    ensures Load(g, Some(WithData(t, Submit(f).value))) == f
  {
    var d := Submit(f).value;
    assert OrEmpty(AbsentIfEmpty(f.dueDate)) == f.dueDate;
    assert OrEmpty(AbsentIfEmpty(f.category)) == f.category;
    assert OrEmpty(AbsentIfEmpty(f.assignedTo)) == f.assignedTo;
    assert d.dueDate == AbsentIfEmpty(f.dueDate);
    assert d.category == AbsentIfEmpty(f.category);
    assert d.assignedTo == AbsentIfEmpty(f.assignedTo);
  }
}
