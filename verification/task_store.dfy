/**
  The task-list hook as a state machine. Each operation takes the current user
  and the remote store's answer as inputs and returns the next state, the
  request it sent to the store (none without a user) and the notice it shows.
 */
module TaskStore {
  import Seqs
  import opened TaskTypes

  datatype User = User(id: string)

  /** `tasks` newest first as the store ordered them; `loading` until a fetch settles. */
  datatype State = State(tasks: seq<Task>, loading: bool)

  /** What a store call produced: a payload, an error object, or a thrown exception. */
  datatype Reply<T> = Ok(data: T) | Failed | Threw

  /** The calls the hook makes on the `tasks` table, each scoped to the user's id. */
  datatype Request =
    | SelectOwned(userId: string)
    | Insert(userId: string, columns: Columns)
    | Patch(taskId: string, userId: string, columns: Columns, updatedAt: string)
    | Remove(taskId: string, userId: string)

  datatype Mutation = Create | Update | Delete

  /** Which error notice is shown: the store reported an error, or something threw. */
  datatype Failure = FetchFailed | CreateFailed | UpdateFailed | DeleteFailed | Unexpected

  datatype Notice = Success(op: Mutation) | Error(failure: Failure)

  datatype Step = Step(state: State, request: Option<Request>, notice: Option<Notice>)

  function Initial(): (s: State)
    ensures s.tasks == [] && s.loading
  {
    State([], true)
  }

  /** A reply that carries a row. A `null` row without an error is dereferenced and throws. */
  predicate Delivered<T>(reply: Reply<Option<T>>) {
    reply.Ok? && reply.data.Some?
  }

  /** The notice of a failed mutation: its own message for a store error, the generic one otherwise. */
  function FailureOf<T>(reply: Reply<T>, onError: Failure): Failure {
    if reply.Failed? then onError else Unexpected
  }

  function HasId(id: string): Task -> bool {
    (t: Task) => t.id == id
  }

  function LacksId(id: string): Task -> bool {
    (t: Task) => t.id != id
  }

  function ReplaceIfId(id: string, updated: Task): Task -> Task {
    (t: Task) => if t.id == id then updated else t
  }

  /** Ids of the tasks in a list. */
  function Ids(tasks: seq<Task>): seq<string> {
    Seqs.Map((t: Task) => t.id, tasks)
  }

  /**
    `fetchTasks`. Without a user nothing happens. Otherwise the list is replaced
    by the normalised rows in the order received (a `null` payload is the empty
    list) or, on error, kept; either way `loading` ends.
   */
  function Fetch(s: State, user: Option<User>, reply: Reply<Option<seq<Row>>>): (r: Step)
    ensures user.None? ==> r == Step(s, None, None)
    ensures user.Some? ==> r.request == Some(SelectOwned(user.value.id)) && !r.state.loading
    ensures user.Some? && reply.Ok? ==>
      var rows := if reply.data.Some? then reply.data.value else [];
      && |r.state.tasks| == |rows|
      && (forall i :: 0 <= i < |rows| ==> r.state.tasks[i] == FromRow(rows[i]))
      && r.notice.None?
    ensures user.Some? && !reply.Ok? ==>
      && r.state.tasks == s.tasks
      && r.notice == Some(Error(if reply.Failed? then FetchFailed else Unexpected))
  {
    if user.None? then Step(s, None, None)
    else
      var request := Some(SelectOwned(user.value.id));
      match reply
      case Ok(data) =>
        var rows := if data.Some? then data.value else [];
        Step(State(Seqs.Map(FromRow, rows), false), request, None)
      case Failed => Step(s.(loading := false), request, Some(Error(FetchFailed)))
      case Threw => Step(s.(loading := false), request, Some(Error(Unexpected)))
  }

  /**
    `createTask`. On success the stored task is put in front of the old list;
    on any failure the state is kept.
   */
  function CreateTask(s: State, user: Option<User>, data: TaskData, reply: Reply<Option<Row>>): (r: Step)
    ensures r.state.loading == s.loading
    ensures user.None? ==> r == Step(s, None, None)
    ensures user.Some? ==> r.request == Some(Insert(user.value.id, ToColumns(data)))
    ensures user.Some? && Delivered(reply) ==>
      && |r.state.tasks| == |s.tasks| + 1
      && r.state.tasks[0] == FromRow(reply.data.value)
      && r.state.tasks[1..] == s.tasks
      && r.notice == Some(Success(Create))
    ensures user.Some? && !Delivered(reply) ==>
      && r.state == s
      && r.notice == Some(Error(FailureOf(reply, CreateFailed)))
  {
    if user.None? then Step(s, None, None)
    else
      var request := Some(Insert(user.value.id, ToColumns(data)));
      if Delivered(reply) then
        Step(s.(tasks := [FromRow(reply.data.value)] + s.tasks), request, Some(Success(Create)))
      else
        Step(s, request, Some(Error(FailureOf(reply, CreateFailed))))
  }

  /**
    `updateTask`. On success every entry whose id is `taskId` is replaced by the
    returned task, in place; on any failure the state is kept. `now` is the
    client clock's time stamp sent as `updated_at`.
   */
  function UpdateTask(s: State, user: Option<User>, taskId: string, data: TaskData, now: string,
                      reply: Reply<Option<Row>>): (r: Step)
    ensures r.state.loading == s.loading
    ensures user.None? ==> r == Step(s, None, None)
    ensures user.Some? ==> r.request == Some(Patch(taskId, user.value.id, ToColumns(data), now))
    ensures user.Some? && Delivered(reply) ==>
      && |r.state.tasks| == |s.tasks|
      && (forall i :: 0 <= i < |s.tasks| && s.tasks[i].id == taskId ==>
            r.state.tasks[i] == FromRow(reply.data.value))
      && (forall i :: 0 <= i < |s.tasks| && s.tasks[i].id != taskId ==>
            r.state.tasks[i] == s.tasks[i])
      && (taskId !in Ids(s.tasks) ==> r.state.tasks == s.tasks)
      && r.notice == Some(Success(Update))
    ensures user.Some? && !Delivered(reply) ==>
      && r.state == s
      && r.notice == Some(Error(FailureOf(reply, UpdateFailed)))
  {
    if user.None? then Step(s, None, None)
    else
      var request := Some(Patch(taskId, user.value.id, ToColumns(data), now));
      if Delivered(reply) then
        var updated := Seqs.Map(ReplaceIfId(taskId, FromRow(reply.data.value)), s.tasks);
        assert taskId !in Ids(s.tasks) ==> updated == s.tasks by {
          if taskId !in Ids(s.tasks) {
            forall i | 0 <= i < |s.tasks| ensures updated[i] == s.tasks[i] {
              assert Ids(s.tasks)[i] == s.tasks[i].id;
            }
          }
        }
        Step(s.(tasks := updated), request, Some(Success(Update)))
      else
        Step(s, request, Some(Error(FailureOf(reply, UpdateFailed))))
  }

  /**
    `deleteTask`. On success every entry with id `taskId` is dropped and the
    rest keep their order; on any failure the state is kept.
   */
  function DeleteTask(s: State, user: Option<User>, taskId: string, reply: Reply<()>): (r: Step)
    ensures r.state.loading == s.loading
    ensures user.None? ==> r == Step(s, None, None)
    ensures user.Some? ==> r.request == Some(Remove(taskId, user.value.id))
    ensures user.Some? && reply.Ok? ==>
      && taskId !in Ids(r.state.tasks)
      && (forall t :: t in r.state.tasks <==> t in s.tasks && t.id != taskId)
      && Seqs.IsSubsequence(r.state.tasks, s.tasks)
      && |r.state.tasks| == |s.tasks| - |Seqs.Filter(HasId(taskId), s.tasks)|
      && r.notice == Some(Success(Delete))
    ensures user.Some? && !reply.Ok? ==>
      && r.state == s
      && r.notice == Some(Error(FailureOf(reply, DeleteFailed)))
  {
    if user.None? then Step(s, None, None)
    else
      var request := Some(Remove(taskId, user.value.id));
      if reply.Ok? then
        var kept := Seqs.Filter(LacksId(taskId), s.tasks);
        Seqs.FilterIsSubsequence(LacksId(taskId), s.tasks);
        Seqs.FilterSplit(HasId(taskId), LacksId(taskId), s.tasks);
        assert taskId !in Ids(kept) by {
          forall i | 0 <= i < |kept| ensures Ids(kept)[i] != taskId {
            assert kept[i] in kept;
          }
        }
        Step(s.(tasks := kept), request, Some(Success(Delete)))
      else
        Step(s, request, Some(Error(FailureOf(reply, DeleteFailed))))
  }

  /** Deleting a task just created, whose id was new to the list, restores the list. */
  lemma CreateThenDeleteRestores(s: State, user: Option<User>, data: TaskData, row: Row)
    requires user.Some?
    requires row.id !in Ids(s.tasks)
    ensures var created := CreateTask(s, user, data, Ok(Some(row))).state;
      DeleteTask(created, user, row.id, Ok(())).state == s
  {
    var created := CreateTask(s, user, data, Ok(Some(row))).state;
    assert created.tasks == [FromRow(row)] + s.tasks;
    forall i | 0 <= i < |s.tasks| ensures LacksId(row.id)(s.tasks[i]) {
      assert Ids(s.tasks)[i] == s.tasks[i].id;
    }
    Seqs.FilterKeepsAll(LacksId(row.id), s.tasks);
    assert created.tasks[1..] == s.tasks;
  }

  /** Repeating a successful update with the same returned row changes nothing more. */
  lemma UpdateIdempotent(s: State, user: Option<User>, taskId: string, data: TaskData, now: string,
                         row: Row)
    requires user.Some?
    ensures var once := UpdateTask(s, user, taskId, data, now, Ok(Some(row))).state;
      UpdateTask(once, user, taskId, data, now, Ok(Some(row))).state == once
  {
  }

  /** A successful update whose returned row keeps the id leaves the list's ids as they were. */
  lemma UpdateKeepsIds(s: State, user: Option<User>, taskId: string, data: TaskData, now: string,
                       row: Row)
    requires user.Some?
    requires row.id == taskId
    ensures Ids(UpdateTask(s, user, taskId, data, now, Ok(Some(row))).state.tasks) == Ids(s.tasks)
  {
  }

  /**
    Summary of the four signed-out clauses above, in one place: without a user
    every operation is a no-op that sends nothing and shows nothing.
   */
  lemma SignedOutIsInert(s: State, data: TaskData, taskId: string, now: string,
                         fetched: Reply<Option<seq<Row>>>, written: Reply<Option<Row>>,
                         removed: Reply<()>)
    ensures Fetch(s, None, fetched) == Step(s, None, None)
    ensures CreateTask(s, None, data, written) == Step(s, None, None)
    ensures UpdateTask(s, None, taskId, data, now, written) == Step(s, None, None)
    ensures DeleteTask(s, None, taskId, removed) == Step(s, None, None)
  {
  }
}
