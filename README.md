# TrackIt task tracker: a Dafny model

This project models the logic of TrackIt, a kanban task tracker, in Dafny.
The backend is a REST service over a document store. The client is a
single-page board with three status columns and drag-and-drop between them.
The model covers these parts:

- **Backend task handlers** (`TaskController`). A `TaskStore` class holds the
  collection as a `map<Id, Task>`. Its methods are the five handlers:
  create, list, update, move and delete. Each one returns the HTTP reply it
  would send (201/200, 404 "Task not found", or 500 with the store's error
  message). Whether the store's lookup or write throws is an input
  (`StoreFault`). The update merge is the pure function `Merged`, which
  applies JavaScript's `||` to each field.
- **Board page** (`Dashboard`). The pure list updates are:
  - the optimistic status change (`WithStatus`);
  - the replacement after an edit (`ReplacedById`);
  - the optimistic delete (`Without`);
  - the three column filters (`Column`, `ColumnsOf`).

  A `Board` class holds the page state (`tasks`, `loading`, `error`,
  `showTaskForm`, `editingTask`, `activeId`) and has one method per handler.
  The server's answer is a parameter.
- **Auth session** (`AuthContext`). The `AuthSession` class holds `user`,
  `token`, `loading`, `error`, the stored token and the default
  Authorization header. `TokenUserId` states the startup token-shape check.
- **Forms** (`RegisterPage`, `LoginPage`, `TaskForm`). Each form has a
  record, a field-wise change function and its submit guard chain. A small
  class per form holds the form state.
- **JavaScript primitives** the code relies on (`JsValues`, `JsStrings`,
  `JsArrays`):
  - truthiness and `||` on string fields;
  - `split` (proved to round-trip with `join` in both directions);
  - `trim` (proved empty exactly for all-whitespace strings);
  - `map`, `filter` and `find`.

A JSON string field is an `Option<string>`. `None` stands for `undefined` or
`null`. Only a non-empty string is truthy. Each async handler is one atomic
step, and the outcome of its network call is a parameter.

Facts the proofs bring out:

- Editing a task and choosing a status in the form's selector sets its
  status to "todo", "inprogress" or "done": the update merge copies any
  non-empty status from the body (`TaskController.MergeFieldwise`). None of
  these three is a board column id, so the edited task then appears in no
  column (`Dashboard.FormStatusesOffBoard`). An edit that leaves the selector
  alone keeps the task's current status. On create the body's status is
  dropped and the stored status is the store schema's default, which this
  model takes as an input (`TaskController.TaskStore.CreateTask`).
- After a login or registration, the token change re-runs the startup check.
  That check replaces the user by one known only by id, so the name and
  email returned by the server are lost (`AuthContext.LoginThenEffects`).
- An update can never clear a field. An empty string keeps the old value
  (`TaskController.MergeNeverClears`).

Where the documented design and the code disagree, the model follows the
code:

- Deleting an absent id is answered 404, not success. A second delete of the
  same id therefore fails (`TaskController.DeleteTwice`).
- The create handler neither checks the title nor sets a status. Both are
  left to the store's schema, which is not part of this model. The created
  task's status is an input (`schemaStatus`), and the body's status is never
  copied.
- The board does not add or edit optimistically. It appends or replaces only
  after the server answers. Only move and delete are optimistic.
- A failed move restores the list captured before the drop. A failed delete
  does not restore anything: it refetches the list, and the filtered list
  stays if the refetch also fails.
- The header and startup checks test the token for truthiness, not
  non-nullness. An empty stored token behaves like no token.
- The column ids are "To Do", "In Progress" and "Done". A task with any
  other status, or none, appears in no column. The columns cover the whole
  list only when every status is one of the three
  (`Dashboard.ColumnsCoverBoard`).

## Model

| member | source | states |
|---|---|---|
| JsStrings.Split | client/src/context/AuthContext.jsx:33 | `token.split(".")` gives one more part than there are separators, and no part contains the separator |
| JsStrings.JoinSplit | client/src/context/AuthContext.jsx:33 | joining the parts of a split with the separator gives back the original token |
| JsStrings.SplitJoin | client/src/context/AuthContext.jsx:33 | splitting a join of separator-free parts gives back exactly those parts |
| JsStrings.TrimStart | client/src/components/TaskForm.jsx:33 | the result is the suffix left after a blank prefix, and it starts with a non-whitespace character or is empty |
| JsStrings.TrimEnd | client/src/components/TaskForm.jsx:33 | the result is the prefix left before a blank suffix, and it ends with a non-whitespace character or is empty |
| JsStrings.TrimEmptyIffBlank | client/src/components/TaskForm.jsx:33 | `title.trim()` is empty exactly when the title is empty or all whitespace |
| JsArrays.Mapped | client/src/pages/Dashboard.jsx:80 | `map` keeps the length and transforms each element in place |
| JsValues.Or | backend/controllers/taskController.js:40-43 | `a \|\| b` on fields is `a` when it is a non-empty string and otherwise `b`, so it is truthy exactly when one of the two is |
| JsValues.OrElse | client/src/components/TaskForm.jsx:18-21 | `a \|\| d` with a string default is `a`'s text when it is non-empty and otherwise `d`, and is non-empty whenever `d` is |
| JsStrings.Trim | client/src/components/TaskForm.jsx:33 | `title.trim()` is the slice of the title between a blank prefix and a blank suffix, and neither starts nor ends with whitespace |
| JsArrays.Filtered | client/src/pages/Dashboard.jsx:123 | `filter` keeps exactly the elements satisfying the predicate, as an order-preserving subsequence |
| JsArrays.FilteredKeepsEveryCopy | client/src/pages/Dashboard.jsx:123 | `filter` keeps every copy of an element that passes and none of one that fails, so it cannot drop duplicates |
| JsArrays.Find | client/src/pages/Dashboard.jsx:76 | `find` is empty iff no element satisfies the predicate; otherwise it is the first element that does |
| TaskController.Merged | backend/controllers/taskController.js:40-43 | the updated task keeps its id and creator, and each of the four fields is either the stored value or the body's |
| TaskController.MergeNothingIsIdentity | backend/controllers/taskController.js:40-43 | an update body with no truthy field leaves the task unchanged |
| TaskController.MergeFieldwise | backend/controllers/taskController.js:40-43 | each field is replaced exactly when the body's value is a non-empty string; the id and creator are untouched |
| TaskController.MergeNeverClears | backend/controllers/taskController.js:40-43 | a field that holds a non-empty value still holds one after any update |
| TaskController.MergeIdempotent | backend/controllers/taskController.js:40-43 | applying the same update twice equals applying it once |
| TaskController.TaskStore.CreateTask | backend/controllers/taskController.js:5-20 | stores title, description and assignedTo from the body, with the caller as creator, under a fresh id; the body's status is not copied; replies 201 with the task; a failed write replies 500 with its message and stores nothing |
| TaskController.TaskStore.GetTasks | backend/controllers/taskController.js:23-30 | replies 200 with every stored task, once each and unfiltered, in the store's order; a failed read replies 500 |
| TaskController.TaskStore.UpdateTask | backend/controllers/taskController.js:32-50 | an absent id gives 404 and no change; otherwise the merged task is stored and returned, with nothing else changed; store errors give 500 and no change |
| TaskController.TaskStore.DeleteTask | backend/controllers/taskController.js:53-70 | an absent id gives 404; otherwise only that id leaves the store and the reply is 200 "Task deleted successfully"; store errors give 500 and no change |
| TaskController.TaskStore.MoveTask | backend/controllers/taskController.js:73-86 | an absent id gives 404; otherwise only the status changes, to the body's value whatever it is, even missing |
| TaskController.DeleteTwice | backend/controllers/taskController.js:55-66 | deleting the same id twice: the first request succeeds and the second is answered 404 |
| TaskForm.WithField | client/src/components/TaskForm.jsx:26-28 | the named field takes the new value and every other field is kept |
| TaskForm.FromTask | client/src/components/TaskForm.jsx:15-23 | an edited task's text fields are copied, with missing ones becoming ""; its status is kept when non-empty and otherwise becomes "todo" |
| TaskForm.TaskFormState.constructor | client/src/components/TaskForm.jsx:7-12 | a new form has empty title, description and assignee, and status "todo" |
| TaskForm.TaskFormState.Populate | client/src/components/TaskForm.jsx:15-24 | a given task replaces the whole form; without one the form is unchanged |
| TaskForm.TaskFormState.OnChange | client/src/components/TaskForm.jsx:26-28 | only the named field of the form changes |
| TaskForm.TaskFormState.HandleSubmit | client/src/components/TaskForm.jsx:30-38 | a blank title submits nothing; otherwise the form data is submitted exactly as held, untrimmed |
| Dashboard.FindById | client/src/pages/Dashboard.jsx:76 | the lookup fails iff no task has the id; otherwise it returns a listed task with that id |
| Dashboard.WithStatus | client/src/pages/Dashboard.jsx:80 | same length and order; tasks with the id get the new status, and every other task is unchanged |
| Dashboard.ReplacedById | client/src/pages/Dashboard.jsx:111 | same length and order; tasks with the id become the server's copy, and every other task is unchanged |
| Dashboard.Without | client/src/pages/Dashboard.jsx:123 | no task with the id remains, every other task is kept, and relative order is preserved |
| Dashboard.WithoutKeepsEveryCopy | client/src/pages/Dashboard.jsx:123 | the optimistic delete removes every copy of the tasks with the id and keeps every copy of every other task |
| Dashboard.Column | client/src/pages/Dashboard.jsx:165-167 | a column holds only tasks with its status, and every task with that status |
| Dashboard.ColumnsOf | client/src/pages/Dashboard.jsx:165-167 | each column is an order-preserving subsequence holding exactly the tasks with its status; the columns are pairwise disjoint, and a task with any other status is in none |
| Dashboard.ColumnsPartition | client/src/pages/Dashboard.jsx:165-167 | the three columns plus the off-board tasks hold every task exactly as often as the list does |
| Dashboard.NothingOffBoard | client/src/pages/Dashboard.jsx:165-167 | when every status is a column id, no task is off the board |
| Dashboard.ColumnsCoverBoard | client/src/pages/Dashboard.jsx:165-167 | when every status is a column id, the column sizes add up to the list's length |
| Dashboard.MovedTaskShowsInTarget | client/src/pages/Dashboard.jsx:80 | after an optimistic move to a column, the task shows in the target column and no task with its id shows in the other two |
| Dashboard.FormStatusesOffBoard | client/src/components/TaskForm.jsx:109-111 | the form's default status values match no column id, so a task holding one of them shows in no column |
| Dashboard.Board.constructor | client/src/pages/Dashboard.jsx:21-26 | the page starts with an empty list, loading, no error, no form, no edited task and no dragged task |
| Dashboard.Board.LoadOnMount | client/src/pages/Dashboard.jsx:41-55 | the fetched list replaces the tasks, or the load error is set; loading ends either way |
| Dashboard.Board.HandleDragStart | client/src/pages/Dashboard.jsx:57-59 | records the dragged id and changes nothing else |
| Dashboard.MovedTaskShowsOnceInTarget | client/src/pages/Dashboard.jsx:80 | when task ids are distinct, the moved task shows exactly once in the target column |
| Dashboard.DropColumn | client/src/pages/Dashboard.jsx:68 | a drop lands in the column of the sortable list under the pointer when there is one, and otherwise in the column whose id the dropped-on element carries |
| Dashboard.Board.HandleDragEnd | client/src/pages/Dashboard.jsx:61-95 | no target, same column, or an unknown id: no request and no list change; otherwise a move request to the target column, the optimistic status change, and on failure the pre-drop list restored with the error set |
| Dashboard.Board.AddTask | client/src/pages/Dashboard.jsx:97-106 | on success the server's task is appended and the form closes; on failure the list is unchanged and the error is set |
| Dashboard.Board.UpdateTask | client/src/pages/Dashboard.jsx:108-118 | on success tasks with the id are replaced in place and the form closes; on failure the list is unchanged and the error is set |
| Dashboard.Board.DeleteTask | client/src/pages/Dashboard.jsx:120-139 | the task leaves the list at once; on failure the list becomes the refetched one (or stays filtered) and the error is set |
| Dashboard.Board.FetchTasks | client/src/pages/Dashboard.jsx:142-149 | a successful refresh replaces the list; a failed one changes nothing |
| Dashboard.Board.HandleEditTask | client/src/pages/Dashboard.jsx:151-154 | opens the form on the given task |
| AuthContext.TokenUserId | client/src/context/AuthContext.jsx:33-41 | a token yields a user id only if it has exactly two dots and its middle part decodes to a truthy id; any other dot count is rejected |
| AuthContext.WellFormedTokenYieldsId | client/src/context/AuthContext.jsx:33-44 | a token made of three dot-free parts whose middle part decodes to id `i` yields exactly `i` |
| AuthContext.FailureMessage | client/src/context/AuthContext.jsx:74 | the error shown is the server's message when non-empty, and otherwise exactly the fallback: "Registration failed" here, and "Login failed" in the login handler at line 93 |
| AuthContext.AuthSession.constructor | client/src/context/AuthContext.jsx:9-12 | the session starts with the stored token, no user, loading and no error |
| AuthContext.AuthSession.SyncAuthHeader | client/src/context/AuthContext.jsx:15-21 | the header is "Bearer " plus the token exactly when the token is truthy, and absent otherwise |
| AuthContext.AuthSession.LoadUser | client/src/context/AuthContext.jsx:25-55 | no token: only loading ends; a malformed token or payload clears storage, token and user; a good token sets a user with only its id; loading ends in every case |
| AuthContext.AuthSession.Authenticate | client/src/context/AuthContext.jsx:61-77 | clears the error, then on success stores the token in storage and state and sets the user from the response; on failure sets the server's message or the fallback and rethrows |
| AuthContext.AuthSession.Register | client/src/context/AuthContext.jsx:61-77 | register with the fallback "Registration failed" |
| AuthContext.AuthSession.Login | client/src/context/AuthContext.jsx:80-96 | login with the fallback "Login failed" |
| AuthContext.AuthSession.Logout | client/src/context/AuthContext.jsx:99-103 | clears the stored token, the token and the user |
| AuthContext.LoginThenEffects | client/src/context/AuthContext.jsx:15-58 | after a login with a well-formed token that differs from the current one and the effects the change triggers, the header carries the token and the user keeps only the id |
| RegisterPage.WithField | client/src/pages/Register.jsx:33-35 | the named field takes the new value and every other field is kept |
| RegisterPage.Validate | client/src/pages/Register.jsx:41-54 | checks run in order (name, email and password filled in; passwords equal; at least 6 characters) and the first failing message wins; the confirmation is not checked for emptiness |
| RegisterPage.RegisterForm.constructor | client/src/pages/Register.jsx:8-14 | all fields empty and no error shown |
| RegisterPage.RegisterForm.OnChange | client/src/pages/Register.jsx:33-35 | only the named field changes |
| RegisterPage.RegisterForm.OnSubmit | client/src/pages/Register.jsx:37-58 | the error is reset; a failing check shows its message and sends nothing; otherwise `register` receives name, email and password, without the confirmation |
| RegisterPage.RegisterForm.ShowSessionError | client/src/pages/Register.jsx:25-29 | a non-empty session error becomes the shown error |
| LoginPage.WithField | client/src/pages/Login.jsx:30-32 | the named field takes the new value and the other is kept |
| LoginPage.Validate | client/src/pages/Login.jsx:38-41 | the form is rejected with "Please enter all fields" iff email or password is empty; there is no length check |
| LoginPage.LoginForm.constructor | client/src/pages/Login.jsx:7-11 | both fields empty and no error shown |
| LoginPage.LoginForm.OnChange | client/src/pages/Login.jsx:30-32 | only the named field changes |
| LoginPage.LoginForm.OnSubmit | client/src/pages/Login.jsx:34-48 | the error is reset; an incomplete form shows the message and sends nothing; otherwise `login` receives email and password |
| LoginPage.LoginForm.ShowSessionError | client/src/pages/Login.jsx:22-26 | a non-empty session error becomes the shown error |

## Left out

- The document store and its schema (`backend/models/task.js` is not part
  of this model). The store's id generation is represented by a fresh-id
  parameter. Its default status and any validation appear only through the
  `schemaStatus` input and the `WriteFails` fault. A malformed id that makes
  `findById` throw is a `ReadFails` fault.
- JSON values other than strings and missing values (numbers, booleans,
  nested objects in a request body or token payload). Truthiness is modelled
  for strings only.
- Base64 and JSON decoding of the token payload. This is the `Decoder`
  parameter.
- `localStorage`, axios and the network. They are the fields `storedToken`
  and `authHeader` plus outcome parameters. Timing, interleaving of async
  handlers, React's batching and stale closures are not modelled: each
  handler is one atomic step.
- Navigation (`navigate("/")` after registration, and the redirect when a
  user is already signed in), console logging, and all markup and styling.
- `Header.jsx`, `SortableTaskCard.jsx`, `TaskCard.jsx`, `App.jsx`,
  `main.jsx`, `server.js`, `db.js` and the Vite configuration. These are
  presentation, routing, wiring and configuration.
- The inline button handlers that open and close the task form
  (`Dashboard.jsx` lines 177-180 and 199-202). They only set two flags.
- User registration, login, password hashing and token signing on the
  server. These files are not part of this model.
- Password length is counted in Dafny characters, not in JavaScript's UTF-16
  code units. The two differ only for characters outside the Basic
  Multilingual Plane.
- `onChange` with an input name outside the form's own fields. JavaScript
  would add a new key to the form; the model only has the form's own
  fields.
