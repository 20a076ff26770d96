/**
  The dashboard: the derived filtered list and status counters, the modal
  state `{showTaskForm, editingTask}`, and the submit handlers that forward
  to the task-list hook.
 */
module Dashboard {
  import Seqs
  import Text
  import opened TaskTypes
  import TaskStore
  import TaskForm

  /** A filter selector: `'all'` or one status / priority value. */
  datatype Selection = All | Only(value: string)

  predicate MatchesSearch(t: Task, query: string) {
    var q := Text.ToLower(query);
    Text.Includes(Text.ToLower(t.title), q) || Text.Includes(Text.ToLower(t.description), q)
  }

  predicate MatchesStatus(t: Task, status: Selection) {
    status.All? || t.status == status.value
  }

  predicate MatchesPriority(t: Task, priority: Selection) {
    priority.All? || t.priority == priority.value
  }

  /** The predicate of `filteredTasks`: all three conditions hold. */
  predicate Keep(t: Task, query: string, status: Selection, priority: Selection) {
    MatchesSearch(t, query) && MatchesStatus(t, status) && MatchesPriority(t, priority)
  }

  function KeepFn(query: string, status: Selection, priority: Selection): Task -> bool {
    (t: Task) => Keep(t, query, status, priority)
  }

  function DropFn(query: string, status: Selection, priority: Selection): Task -> bool {
    (t: Task) => !Keep(t, query, status, priority)
  }

  function SearchFn(query: string): Task -> bool {
    (t: Task) => MatchesSearch(t, query)
  }

  function StatusFn(status: Selection): Task -> bool {
    (t: Task) => MatchesStatus(t, status)
  }

  function PriorityFn(priority: Selection): Task -> bool {
    (t: Task) => MatchesPriority(t, priority)
  }

  /**
    `filteredTasks`: an order-preserving subsequence of `tasks` that holds
    a task exactly when the three conditions hold for it.
   */
  function FilteredTasks(tasks: seq<Task>, query: string, status: Selection, priority: Selection)
    : (r: seq<Task>)
    ensures Seqs.IsSubsequence(r, tasks)
    ensures forall t :: t in r <==> t in tasks && Keep(t, query, status, priority)
    ensures |r| + |Seqs.Filter(DropFn(query, status, priority), tasks)| == |tasks|
  {
    Seqs.FilterIsSubsequence(KeepFn(query, status, priority), tasks);
    Seqs.FilterSplit(KeepFn(query, status, priority), DropFn(query, status, priority), tasks);
    Seqs.Filter(KeepFn(query, status, priority), tasks)
  }

  /** With an empty query and both selectors on `'all'` the list is shown unchanged. */
  lemma UnfilteredShowsAll(tasks: seq<Task>)
    ensures FilteredTasks(tasks, "", All, All) == tasks
  {
    forall i | 0 <= i < |tasks| ensures KeepFn("", All, All)(tasks[i]) {
      Text.IncludesEmpty(Text.ToLower(tasks[i].title));
    }
    Seqs.FilterKeepsAll(KeepFn("", All, All), tasks);
  }

  /** Filtering the filtered list again by the same inputs changes nothing. */
  lemma FilterIdempotent(tasks: seq<Task>, query: string, status: Selection, priority: Selection)
    ensures var once := FilteredTasks(tasks, query, status, priority);
      FilteredTasks(once, query, status, priority) == once
  {
    Seqs.FilterIdempotent(KeepFn(query, status, priority), tasks);
  }

  /**
    The three conditions may be applied one after another in either order:
    search then status then priority, or priority then status then search,
    both give `filteredTasks`.
   */
  lemma FilterOrderIrrelevant(tasks: seq<Task>, query: string, status: Selection, priority: Selection)
    ensures Seqs.Filter(PriorityFn(priority), Seqs.Filter(StatusFn(status), Seqs.Filter(SearchFn(query), tasks)))
         == FilteredTasks(tasks, query, status, priority)
    ensures Seqs.Filter(SearchFn(query), Seqs.Filter(StatusFn(status), Seqs.Filter(PriorityFn(priority), tasks)))
         == FilteredTasks(tasks, query, status, priority)
  {
    var searchStatus := (t: Task) => MatchesSearch(t, query) && MatchesStatus(t, status);
    Seqs.FilterFuse(StatusFn(status), SearchFn(query), searchStatus, tasks);
    Seqs.FilterFuse(PriorityFn(priority), searchStatus, KeepFn(query, status, priority), tasks);
    var statusPriority := (t: Task) => MatchesStatus(t, status) && MatchesPriority(t, priority);
    Seqs.FilterFuse(StatusFn(status), PriorityFn(priority), statusPriority, tasks);
    Seqs.FilterFuse(SearchFn(query), statusPriority, KeepFn(query, status, priority), tasks);
  }

  /** `taskStats`. */
  datatype TaskStats = TaskStats(total: nat, completed: nat, inProgress: nat, todo: nat)

  function HasStatus(status: string): Task -> bool {
    (t: Task) => t.status == status
  }

  function LacksStatus(status: string): Task -> bool {
    (t: Task) => t.status != status
  }

  /**
    The number of tasks whose status is `status`: together with the number of
    tasks with another status it makes up the whole list.
   */
  function CountStatus(tasks: seq<Task>, status: string): (n: nat)
    ensures n + |Seqs.Filter(LacksStatus(status), tasks)| == |tasks|
    ensures n <= |tasks|
    ensures n == 0 <==> forall i :: 0 <= i < |tasks| ==> tasks[i].status != status
  {
    var r := Seqs.Filter(HasStatus(status), tasks);
    Seqs.FilterSplit(HasStatus(status), LacksStatus(status), tasks);
    assert r != [] ==> r[0] in r;
    assert forall i :: 0 <= i < |tasks| ==> tasks[i] in tasks;
    |r|
  }

  predicate IsKnownStatus(s: string) {
    s == Todo || s == InProgress || s == Completed
  }

  function UnknownStatusFn(): Task -> bool {
    (t: Task) => !IsKnownStatus(t.status)
  }

  /**
    Every task is counted by at most one counter: the three counts plus the
    tasks with any other status make up the list.
   */
  lemma {:induction false} CountsPartition(tasks: seq<Task>)
    ensures CountStatus(tasks, Completed) + CountStatus(tasks, InProgress) + CountStatus(tasks, Todo)
            + |Seqs.Filter(UnknownStatusFn(), tasks)| == |tasks|
  {
    if tasks != [] {
      CountsPartition(tasks[1..]);
    }
  }

  /**
    Counts by status. Each counter is the number of tasks with its status, and
    since a task has one status, the three counters never exceed the total.
   */
  function Stats(tasks: seq<Task>): (r: TaskStats)
    ensures r.total == |tasks|
    ensures r.completed == CountStatus(tasks, Completed)
    ensures r.inProgress == CountStatus(tasks, InProgress)
    ensures r.todo == CountStatus(tasks, Todo)
    ensures r.completed + r.inProgress + r.todo <= r.total
  {
    CountsPartition(tasks);
    TaskStats(|tasks|, CountStatus(tasks, Completed), CountStatus(tasks, InProgress),
              CountStatus(tasks, Todo))
  }

  /** When every status is one of the three known values, the three counters add up to the total. */
  lemma StatsPartition(tasks: seq<Task>)
    requires forall i :: 0 <= i < |tasks| ==> IsKnownStatus(tasks[i].status)
    ensures var s := Stats(tasks); s.completed + s.inProgress + s.todo == s.total
  {
    CountsPartition(tasks);
    var known := (t: Task) => IsKnownStatus(t.status);
    Seqs.FilterKeepsAll(known, tasks);
    Seqs.FilterSplit(known, UnknownStatusFn(), tasks);
  }

  /** The modal: whether the form is shown and which task it edits, if any. */
  datatype Modal = Modal(showTaskForm: bool, editingTask: Option<Task>)

  /** The modal before any input: hidden, editing nothing. */
  function InitialModal(): (m: Modal)
    ensures !m.showTaskForm && m.editingTask.None?
  {
    Modal(false, None)
  }

  /** The form never edits a task while hidden. */
  predicate IsConsistent(m: Modal) {
    m.editingTask.Some? ==> m.showTaskForm
  }

  /** The "New Task" button. */
  function OpenNew(m: Modal): (r: Modal)
    ensures r.showTaskForm && r.editingTask.None?
  {
    Modal(true, None)
  }

  /** `handleEditTask`. */
  function OpenEdit(m: Modal, t: Task): (r: Modal)
    ensures r.showTaskForm && r.editingTask == Some(t)
  {
    Modal(true, Some(t))
  }

  /** The form's cancel action. */
  function Cancel(m: Modal): (r: Modal)
    ensures !r.showTaskForm && r.editingTask.None?
  {
    Modal(false, None)
  }

  /** The dashboard: the hook's state and the modal. */
  datatype View = View(store: TaskStore.State, modal: Modal)

  datatype ViewStep = ViewStep(view: View, request: Option<TaskStore.Request>,
                               notice: Option<TaskStore.Notice>)

  /** `handleCreateTask`: creates, then hides the form whatever the outcome. */
  function HandleCreate(v: View, user: Option<TaskStore.User>, data: TaskData,
                        reply: TaskStore.Reply<Option<Row>>): (r: ViewStep)
    ensures !r.view.modal.showTaskForm
    ensures r.view.modal.editingTask == v.modal.editingTask
    ensures var step := TaskStore.CreateTask(v.store, user, data, reply);
      r.view.store == step.state && r.request == step.request && r.notice == step.notice
  {
    var step := TaskStore.CreateTask(v.store, user, data, reply);
    ViewStep(View(step.state, v.modal.(showTaskForm := false)), step.request, step.notice)
  }

  /**
    `handleUpdateTask`: without an edited task nothing happens; otherwise the
    edited task's id is updated and the form is hidden and cleared.
   */
  function HandleUpdate(v: View, user: Option<TaskStore.User>, data: TaskData, now: string,
                        reply: TaskStore.Reply<Option<Row>>): (r: ViewStep)
    ensures v.modal.editingTask.None? ==> r == ViewStep(v, None, None)
    ensures v.modal.editingTask.Some? ==>
      && r.view.modal == Modal(false, None)
      && var step := TaskStore.UpdateTask(v.store, user, v.modal.editingTask.value.id, data, now, reply);
         r.view.store == step.state && r.request == step.request && r.notice == step.notice
  {
    if v.modal.editingTask.None? then ViewStep(v, None, None)
    else
      var step := TaskStore.UpdateTask(v.store, user, v.modal.editingTask.value.id, data, now, reply);
      ViewStep(View(step.state, Modal(false, None)), step.request, step.notice)
  }

  /** The form's submit target: update while editing a task, create otherwise. */
  function Submit(v: View, user: Option<TaskStore.User>, data: TaskData, now: string,
                  reply: TaskStore.Reply<Option<Row>>): (r: ViewStep)
    ensures v.modal.editingTask.Some? ==> r == HandleUpdate(v, user, data, now, reply)
    ensures v.modal.editingTask.None? ==> r == HandleCreate(v, user, data, reply)
  {
    if v.modal.editingTask.Some? then HandleUpdate(v, user, data, now, reply)
    else HandleCreate(v, user, data, reply)
  }

  /** After any submit the form is hidden and edits no task. */
  lemma SubmitClosesForm(v: View, user: Option<TaskStore.User>, data: TaskData, now: string,
                         reply: TaskStore.Reply<Option<Row>>)
    ensures var m := Submit(v, user, data, now, reply).view.modal;
      !m.showTaskForm && m.editingTask.None?
  {
  }

  /** The modal inputs a user can give. */
  datatype ModalEvent = NewTask | EditTask(task: Task) | CancelForm | SubmitForm

  /** The modal's next value; a submit's modal effect does not depend on the store's reply. */
  function ApplyModal(m: Modal, e: ModalEvent): Modal {
    match e
    case NewTask => OpenNew(m)
    case EditTask(t) => OpenEdit(m, t)
    case CancelForm => Cancel(m)
    case SubmitForm =>
      if m.editingTask.Some? then Modal(false, None) else m.(showTaskForm := false)
  }

  function RunModal(m: Modal, events: seq<ModalEvent>): Modal
    decreases |events|
  {
    if events == [] then m else RunModal(ApplyModal(m, events[0]), events[1..])
  }

  /** From a consistent modal, every sequence of inputs reaches a consistent modal. */
  lemma {:induction false} ModalStaysConsistent(m: Modal, events: seq<ModalEvent>)
    requires IsConsistent(m)
    ensures IsConsistent(RunModal(m, events))
    decreases |events|
  {
    if events != [] {
      ModalStaysConsistent(ApplyModal(m, events[0]), events[1..]);
    }
  }

  /** Whatever the user does, the dashboard's modal never edits a task while the form is hidden. */
  lemma InitialModalStaysConsistent(events: seq<ModalEvent>)
    ensures IsConsistent(RunModal(InitialModal(), events))
  {
    ModalStaysConsistent(InitialModal(), events);
  }

  /** The modal that `Submit` produces is the one `ApplyModal` predicts for a submit. */
  lemma SubmitMatchesModalEvent(v: View, user: Option<TaskStore.User>, data: TaskData, now: string,
                                reply: TaskStore.Reply<Option<Row>>)
    requires IsConsistent(v.modal)
    requires v.modal.showTaskForm
    ensures Submit(v, user, data, now, reply).view.modal == ApplyModal(v.modal, SubmitForm)
  {
  }

  /**
    Opening a task for editing and saving the form untouched, against a store
    that keeps what it is sent, hides the form and changes only `updatedAt` of
    the entries with that task's id.
   */
  lemma SaveUnchangedEdit(v: View, user: Option<TaskStore.User>, t: Task, now: string)
    requires user.Some?
    requires !Text.IsBlank(t.title) && IsNormalTask(t)
    ensures TaskForm.Submit(TaskForm.Load(TaskForm.InitialForm(), Some(t))) == Some(DataOf(t))
    ensures var row := StoredRow(t.id, ToColumns(DataOf(t)), t.createdAt, now);
      var after := Submit(v.(modal := OpenEdit(v.modal, t)), user, DataOf(t), now,
                          TaskStore.Ok(Some(row))).view;
      && after.modal == Modal(false, None)
      && |after.store.tasks| == |v.store.tasks|
      && forall j :: 0 <= j < |v.store.tasks| ==>
           after.store.tasks[j] ==
             (if v.store.tasks[j].id == t.id then t.(updatedAt := now) else v.store.tasks[j])
  {
  }
}
