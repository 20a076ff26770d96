/**
  The task entity in its three shapes: the in-memory `Task`, the database row
  the remote store returns, and the column values the client sends to it; plus
  the field normalisation between them.

  Both `null` and `undefined` are modelled as `None`. The host language's
  "falsy" test on an optional string holds for `None` and for `Some("")`.
 */
module TaskTypes {

  datatype Option<T> = None | Some(value: T)

  /** The status and priority values the form offers. The store does not check them. */
  const Todo: string := "todo"
  const InProgress: string := "in_progress"
  const Completed: string := "completed"
  const Low: string := "low"
  const Medium: string := "medium"
  const High: string := "high"

  /** A task as the hook holds it. `status` and `priority` are raw strings. */
  datatype Task = Task(
    id: string,
    title: string,
    description: string,
    status: string,
    priority: string,
    dueDate: Option<string>,
    category: Option<string>,
    assignedTo: Option<string>,
    createdAt: string,
    updatedAt: string)

  /** The editable part of a task: everything but its id and timestamps. */
  datatype TaskData = TaskData(
    title: string,
    description: string,
    status: string,
    priority: string,
    dueDate: Option<string>,
    category: Option<string>,
    assignedTo: Option<string>)

  /**
    A row of the `tasks` table as the store returns it. The nullable columns
    `description`, `due_date`, `category` and `assigned_to` are options.
   */
  datatype Row = Row(
    id: string,
    title: string,
    description: Option<string>,
    status: string,
    priority: string,
    dueDate: Option<string>,
    category: Option<string>,
    assignedTo: Option<string>,
    createdAt: string,
    updatedAt: string)

  /** The column values sent on insert and update; `None` is SQL `null`. */
  datatype Columns = Columns(
    title: string,
    description: string,
    status: string,
    priority: string,
    dueDate: Option<string>,
    category: Option<string>,
    assignedTo: Option<string>)

  predicate IsFalsy(v: Option<string>) {
    v.None? || v.value == ""
  }

  /** `v || ''` */
  function OrEmpty(v: Option<string>): (r: string)
    ensures r == "" <==> IsFalsy(v)
    ensures r != "" ==> v == Some(r)
  {
    if IsFalsy(v) then "" else v.value
  }

  /** `v || undefined` and `v || null`: a falsy value becomes absent. */
  function OrAbsent(v: Option<string>): (r: Option<string>)
    ensures r.None? <==> IsFalsy(v)
    ensures r.Some? ==> r == v && r.value != ""
  {
    if IsFalsy(v) then None else v
  }

  /** An optional field is normal when it is absent or a non-empty string. */
  predicate IsNormalField(v: Option<string>) {
    v.None? || v.value != ""
  }

  predicate IsNormalData(d: TaskData) {
    IsNormalField(d.dueDate) && IsNormalField(d.category) && IsNormalField(d.assignedTo)
  }

  predicate IsNormalTask(t: Task) {
    IsNormalData(DataOf(t))
  }

  function DataOf(t: Task): TaskData {
    TaskData(t.title, t.description, t.status, t.priority, t.dueDate, t.category, t.assignedTo)
  }

  /** `t` with its editable fields replaced by `d`; id and timestamps kept. */
  function WithData(t: Task, d: TaskData): Task {
    t.(title := d.title, description := d.description, status := d.status,
       priority := d.priority, dueDate := d.dueDate, category := d.category,
       assignedTo := d.assignedTo)
  }

  /**
    The row-to-task mapping applied to every row the store returns: a falsy
    description becomes `""`, a falsy optional column becomes absent, and the
    other columns are copied.
   */
  function FromRow(row: Row): (t: Task)
    ensures IsNormalTask(t)
    ensures t.id == row.id && t.title == row.title
    ensures t.status == row.status && t.priority == row.priority
    ensures t.createdAt == row.createdAt && t.updatedAt == row.updatedAt
    ensures t.description == "" <==> IsFalsy(row.description)
    ensures t.description != "" ==> row.description == Some(t.description)
    ensures t.dueDate.None? <==> IsFalsy(row.dueDate)
    ensures t.category.None? <==> IsFalsy(row.category)
    ensures t.assignedTo.None? <==> IsFalsy(row.assignedTo)
    ensures t.dueDate.Some? ==> t.dueDate == row.dueDate
    ensures t.category.Some? ==> t.category == row.category
    ensures t.assignedTo.Some? ==> t.assignedTo == row.assignedTo
  {
    Task(row.id, row.title, OrEmpty(row.description), row.status, row.priority,
         OrAbsent(row.dueDate), OrAbsent(row.category), OrAbsent(row.assignedTo),
         row.createdAt, row.updatedAt)
  }

  /**
    The task-to-columns mapping used by insert and update: title, description,
    status and priority are sent as given, and a falsy optional field is sent as
    `null`.
   */
  function ToColumns(d: TaskData): (c: Columns)
    ensures c.title == d.title && c.description == d.description
    ensures c.status == d.status && c.priority == d.priority
    ensures c.dueDate.None? <==> IsFalsy(d.dueDate)
    ensures c.category.None? <==> IsFalsy(d.category)
    ensures c.assignedTo.None? <==> IsFalsy(d.assignedTo)
    ensures c.dueDate.Some? ==> c.dueDate == d.dueDate
    ensures c.category.Some? ==> c.category == d.category
    ensures c.assignedTo.Some? ==> c.assignedTo == d.assignedTo
  {
    Columns(d.title, d.description, d.status, d.priority,
            OrAbsent(d.dueDate), OrAbsent(d.category), OrAbsent(d.assignedTo))
  }

  /**
    The row a store that keeps what it is sent holds after writing `c`, with
    the id and timestamps it assigned. This is a reference store, not part of
    the client.
   */
  function StoredRow(id: string, c: Columns, createdAt: string, updatedAt: string): Row {
    Row(id, c.title, Some(c.description), c.status, c.priority,
        c.dueDate, c.category, c.assignedTo, createdAt, updatedAt)
  }

  /** Normalising a field that is already normal changes nothing, in either direction. */
  lemma NormalFieldFixed(v: Option<string>)
    ensures IsNormalField(v) <==> OrAbsent(v) == v
    ensures OrAbsent(OrAbsent(v)) == OrAbsent(v)
  {
  }

  /**
    Writing task data and reading back the stored row yields that data with
    its optional fields normalised; normal data comes back unchanged.
   */
  lemma WriteReadRoundTrip(id: string, d: TaskData, createdAt: string, updatedAt: string)
    ensures var t := FromRow(StoredRow(id, ToColumns(d), createdAt, updatedAt));
      && t.id == id && t.createdAt == createdAt && t.updatedAt == updatedAt
      && DataOf(t) == d.(dueDate := OrAbsent(d.dueDate), category := OrAbsent(d.category),
                         assignedTo := OrAbsent(d.assignedTo))
      && (IsNormalData(d) ==> DataOf(t) == d)
  {
  }

  /**
    Normalisation is idempotent: a task read from any row, written back and
    read again, is the same task.
   */
  lemma ReadWriteReadIdempotent(row: Row)
    ensures var t := FromRow(row);
      FromRow(StoredRow(t.id, ToColumns(DataOf(t)), t.createdAt, t.updatedAt)) == t
  {
  }
}
