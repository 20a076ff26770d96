# Task tracker: task-list hook, dashboard and form, in Dafny

This project models the logic of a single-user task tracker's web front end.
It covers three parts:

- the `useTasks` hook, which fetches, creates, updates and deletes the signed-in user's tasks against a remote store and keeps an in-memory list in step with the replies;
- the dashboard, which derives the filtered list and the status counters and holds the modal state of the task form;
- the task form, with its field state, its load-from-task effect and its submit handler.

All three are pure functions over immutable records. The remote store, the
signed-in user and the client clock are inputs. Each hook operation returns a
`Step`, which holds:

- the next state;
- the request sent to the store (none when no user is signed in);
- the notice shown (success, or one of the error kinds).

Files:

- `seqs.dfy` (`Seqs`): the array `map` and `filter`, the order-preserving subsequence relation, and lemmas about filtering.
- `text.dfy` (`Text`): `trim` over the ECMAScript white-space set, ASCII `toLowerCase`, and substring `includes`.
- `task_types.dfy` (`TaskTypes`): the three shapes of a task, and the normalisation between them. A `Task` is the in-memory record. A `Row` is a database row the store returns. `Columns` are the column values sent to the store.
- `task_store.dfy` (`TaskStore`): the hook's four operations as transitions.
- `dashboard.dfy` (`Dashboard`): the filter, the counters, the modal, and the submit dispatch.
- `task_form.dfy` (`TaskForm`): the form.

Conventions:

- `null` and `undefined` are both `None`. A "falsy" optional string is `None` or `Some("")`.
- Status and priority are raw strings. The hook casts them without checking them.
- A store reply is `Ok(payload)`, `Failed` (an error object came back) or `Threw` (an exception).
- In create and update, an `Ok` reply with a `null` row is dereferenced inside the `try` block. It throws there and is reported as the unexpected-error notice.

In these points the model follows the code:

- A fetched list is kept in the order the store returned it. The client never sorts or checks it, so no ordering is proved.
- A successful delete removes every entry with the id, not just one. The length drops by the number of such entries.
- A successful update replaces the matching entries with the row the store returned. Nothing in the client preserves `createdAt`.
- Signing out does not clear the list. The only reaction to a user change is a fetch when a user is present.
- A successful fetch shows no notice.

## Model

| member | source | states |
|---|---|---|
| TaskStore.Initial | src/hooks/useTasks.ts:9-10 | The hook starts with an empty list and `loading` true. |
| TaskStore.Fetch | src/hooks/useTasks.ts:14-56 | With no user: same state, nothing sent, nothing shown. With a user: sends the owner-scoped select and always ends `loading`. On success the list becomes the rows, normalised, in the order received, and no notice is shown; a null payload gives the empty list. On a store error or a throw the list is kept and the fetch-failed or unexpected notice is shown. |
| TaskStore.CreateTask | src/hooks/useTasks.ts:58-112 | With no user: a no-op. Otherwise it sends an insert of the user's id and the normalised columns. On a delivered row the list grows by one, with the new task first and the old list as an unchanged suffix, and a success notice. Otherwise the state is unchanged and the create-failed or unexpected notice is shown. `loading` never changes. |
| TaskStore.UpdateTask | src/hooks/useTasks.ts:114-170 | With no user: a no-op. Otherwise it sends a patch scoped by task id and user id, carrying the client time stamp. On a delivered row the length is unchanged. Exactly the entries with that id become the returned task; every other entry keeps its position and value; if no id matches, the list is unchanged. On failure the state is unchanged and an error notice is shown. |
| TaskStore.DeleteTask | src/hooks/useTasks.ts:172-204 | With no user: a no-op. Otherwise it sends a delete scoped by task id and user id. On success no entry has the id, and a task is kept iff it was there with another id. The result is a subsequence of the old list, shorter by the number of entries with the id. On failure the state is unchanged and an error notice is shown. |
| TaskStore.CreateThenDeleteRestores | src/hooks/useTasks.ts:99-191 | Successfully deleting a just-created task, whose id was new to the list, gives back the original state. |
| TaskStore.UpdateIdempotent | src/hooks/useTasks.ts:157 | Repeating a successful update with the same returned row leaves the list as the first update left it, whatever id that row carries. |
| TaskStore.UpdateKeepsIds | src/hooks/useTasks.ts:157 | A successful update whose row keeps the task id leaves the list's sequence of ids unchanged. |
| TaskStore.SignedOutIsInert | src/hooks/useTasks.ts:14-173 | Without a user, each of the four operations returns the same state, sends nothing and shows nothing, whatever the store would have replied. |
| TaskTypes.FromRow | src/hooks/useTasks.ts:33-44 | A row becomes a normal task. A falsy description becomes `""`. A falsy due date, category or assignee becomes absent, and any other value is copied. Id, title, status, priority and timestamps are copied. |
| TaskTypes.ToColumns | src/hooks/useTasks.ts:64-73 | Title, description, status and priority are sent as given. A falsy due date, category or assignee is sent as null, and any other value is sent unchanged. |
| TaskTypes.NormalFieldFixed | src/hooks/useTasks.ts:39-41 | Normalising an optional field changes it iff it is `Some("")`. Normalising twice is normalising once. |
| TaskTypes.WriteReadRoundTrip | src/hooks/useTasks.ts:62-97 | Task data written to a store that keeps what it is sent reads back as the same data with normalised optional fields. Normal data reads back exactly. |
| TaskTypes.ReadWriteReadIdempotent | src/hooks/useTasks.ts:118-155 | A task read from any row, written back and read again, is the same task. |
| Text.Trim | src/components/TaskForm.tsx:44 | The trimmed string is a slice of the input with only white space before and after it. It is empty iff every character is white space. Otherwise it starts and ends with a non-white-space character. |
| Text.ToLower | src/components/TaskDashboard.tsx:45-46 | Same length. ASCII capitals become the matching small letters. Every other character is kept. No capital remains. |
| Text.ToLowerIdempotent | src/components/TaskDashboard.tsx:45-46 | Lower-casing twice is lower-casing once. |
| Text.IncludesIffOccurs | src/components/TaskDashboard.tsx:45-46 | `includes` holds iff the needle occupies a slice of the haystack at some offset. |
| Dashboard.FilteredTasks | src/components/TaskDashboard.tsx:44-51 | The result is an order-preserving subsequence of the tasks. It contains a task iff that task is in the list and all three hold: the lower-cased query is in the lower-cased title or description; the status selector is all or equals the status; the priority selector is all or equals the priority. Kept and dropped tasks together number the whole list, so a task listed twice is kept twice. |
| Dashboard.UnfilteredShowsAll | src/components/TaskDashboard.tsx:44-51 | An empty query with both selectors on all returns the task list unchanged. |
| Dashboard.FilterIdempotent | src/components/TaskDashboard.tsx:44-51 | Filtering the filtered list with the same inputs returns it unchanged. |
| Dashboard.FilterOrderIrrelevant | src/components/TaskDashboard.tsx:45-50 | Applying the conditions one after another, as search then status then priority or as priority then status then search, gives the combined filter. |
| Seqs.FilterCommute | src/components/TaskDashboard.tsx:45-50 | Two successive filters can be swapped. Adjacent swaps reach every order of the three conditions, so all six orders give one list. |
| Dashboard.CountStatus | src/components/TaskDashboard.tsx:55-57 | A status count plus the number of tasks with another status is the list length. So it is at most that length, and it is zero iff no task has that status. |
| Dashboard.Stats | src/components/TaskDashboard.tsx:53-58 | `total` is the list length. Each of completed, in-progress and to-do counts the tasks with that status. The three together are at most `total`. |
| Dashboard.CountsPartition | src/components/TaskDashboard.tsx:53-58 | The three counters plus the tasks with any other status add up to the list length: no task is counted twice. |
| Dashboard.StatsPartition | src/components/TaskDashboard.tsx:53-58 | When every status is `todo`, `in_progress` or `completed`, the three counters sum to `total`. |
| Dashboard.OpenNew | src/components/TaskDashboard.tsx:90-93 | "New Task" shows the form with no task being edited. |
| Dashboard.OpenEdit | src/components/TaskDashboard.tsx:39-42 | Editing a task shows the form and makes that task the one being edited. |
| Dashboard.Cancel | src/components/TaskDashboard.tsx:156-159 | Cancel hides the form and clears the edited task. |
| Dashboard.HandleCreate | src/components/TaskDashboard.tsx:22-25 | Create-submit applies the hook's create and hides the form, whatever the outcome. The edited task is unchanged. |
| Dashboard.HandleUpdate | src/components/TaskDashboard.tsx:27-33 | With no edited task nothing changes and nothing is sent. Otherwise it applies the hook's update with the edited task's id, then hides the form and clears the edited task. |
| Dashboard.Submit | src/components/TaskDashboard.tsx:152-155 | The form's submit goes to the update handler while a task is being edited, and to the create handler otherwise. |
| Dashboard.SubmitClosesForm | src/components/TaskDashboard.tsx:22-33 | After any submit the form is hidden and no task is being edited. |
| Dashboard.InitialModal | src/components/TaskDashboard.tsx:16-17 | The modal starts hidden and editing no task. |
| Dashboard.InitialModalStaysConsistent | src/components/TaskDashboard.tsx:16-159 | From the initial modal, any sequence of new, edit, cancel and submit never leaves a task being edited while the form is hidden. |
| Dashboard.ModalStaysConsistent | src/components/TaskDashboard.tsx:16-159 | Start from a modal that never edits a task while hidden. Any sequence of new, edit, cancel and submit keeps it that way. |
| Dashboard.SubmitMatchesModalEvent | src/components/TaskDashboard.tsx:152-159 | Take an open, consistent modal. The modal that submit leaves is the one the event model predicts, whatever the store replied. |
| Dashboard.SaveUnchangedEdit | src/components/TaskDashboard.tsx:27-42 | Take a signed-in user and a normal task with a non-blank title. Open it for edit and save the untouched form against a store that keeps what it is sent. The form closes, and the only change is the `updatedAt` of the entries with that id. |
| TaskForm.InitialForm | src/components/TaskForm.tsx:18-26 | The form starts with status `todo`, priority `medium` and every other field empty. |
| TaskForm.Change | src/components/TaskForm.tsx:54-56 | `handleChange(f, v)` sets field `f` to `v`. Every other field is unchanged. |
| TaskForm.ChangeLastWriteWins | src/components/TaskForm.tsx:54-56 | Of two changes to one field, only the later one counts. Writing a field's own value leaves the form unchanged. |
| TaskForm.Load | src/components/TaskForm.tsx:28-40 | With no task the form is unchanged. A task copies its title, description, status and priority; its due date, category and assignee are copied, or become `""` when falsy. |
| TaskForm.Submit | src/components/TaskForm.tsx:42-52 | Nothing is emitted iff the title is empty or all white space. Otherwise title, description, status and priority pass through untrimmed. Due date, category and assignee are absent iff `""`, and otherwise pass through unchanged. |
| TaskForm.InitialFormSubmit | src/components/TaskForm.tsx:18-26 | The initial form submits nothing. After only a non-blank title is typed, it submits that title with an empty description, status `todo`, priority `medium` and no optional fields. |
| TaskForm.LoadThenSubmit | src/components/TaskForm.tsx:35-50 | Take a task with a non-blank title whose optional fields are absent or non-empty. Loading it and submitting emits exactly its editable fields. |
| TaskForm.SubmitThenLoad | src/components/TaskForm.tsx:35-50 | Take a form with a non-blank title. Its submitted data, stored on any task and loaded back, reproduces the form exactly. |

## Left out

- Store queries and network round trips are not modelled. Each call's outcome is an input, and the request sent is an output. Owner scoping, ordering and timestamps happen in the store.
- `new Date().toISOString()` is a clock. Its value is the `now` parameter of `TaskStore.UpdateTask`.
- Toasts are reduced to `TaskStore.Notice` values. Their titles, texts and variants are left out.
- React state and effects are left out. This includes the re-fetch when the user changes, the asynchronous interleaving of operations, and the missing cancellation of in-flight requests. Each transition applies to the state it is given, which matches the source's functional state updates.
- `handleDeleteTask` in the dashboard only forwards to the hook's delete. It is `TaskStore.DeleteTask`, with no member of its own.
- The loading spinner, and all rendering, are presentation.
- The task list's colour lookup, status labels and date formatting are presentation. So are the header, the filter widgets and the index page.
- Text.ToLower: maps only the ASCII letters A-Z. The source's `toLowerCase` also folds non-ASCII letters, so the search is case-insensitive only over ASCII.
- TaskForm.Change: takes one of the seven form field names. The source accepts any string key, but every call site passes one of these seven.
- Enum validity of status and priority is not claimed. The code does not check these values. Dashboard.StatsPartition assumes validity as a precondition.
- A property over whole sequences of successful operations, matching the list against a model of the remote table, is not modelled. The client keeps no such record to compare against.
