# Task manager client state, modelled in Dafny

This project models the client-side state handling of a small single-page
task manager (a Vue application with Pinia stores):

- the **task store** (`src/stores/tasks.js`): the in-memory task list with
  its `loading` and `error` flags, the derived views `upcomingTasks`,
  `overdueTasks`, `completedTasks` and `getTasksByCategory`, and the actions
  `fetchTasks`, `addTask`, `updateTask`, `toggleTask` and `deleteTask`;
- the **auth store** (`src/stores/auth.js`): the session (user, token,
  `isAuthenticated`, `lastActivity`), its mirror in localStorage under the
  keys `user`, `auth_token` and `lastActivity`, the 24-hour expiry rule, the
  development login with its fixed test account and the production login;
- the **mock REST handlers** (`src/mocks/handlers.js`): GET, POST, PUT and
  DELETE over a task table stored as a JSON array under the key `tasks`;
- the **route guard** (`src/router/index.js`): the page title and the
  three-way navigation decision, failing closed to `/login`;
- the **date predicates** (`src/utils/dateUtils.js`): `isWithinNextWeek` and
  `isOverdue`.

Files: `js.dfy` (JavaScript values and conversions: truthiness,
`new Date(v)`, `String(v)`, the outcome of an awaited request), `seqs.dfy`
(`filter`, `findIndex` and a stable sort), `dates.dfy`, `tasks.dfy`,
`auth.dfy`, `handlers.dfy`, `router.dfy`.

How the model is built:

- A JavaScript value is `Js.Value`; an object is a `map<string, Value>`, so
  an object spread `{...a, ...b}` is the map union `a + b` and a missing
  property reads as `undefined`. `DateText(ms)` stands for a string that the
  `Date` constructor parses to the instant `ms` (what `toISOString()` writes,
  or a date-input value); `Str(s)` is any other string.
- The clock is a parameter `now` (milliseconds). Each awaited request is an
  input `Reply`: answered with a parsed body, a non-ok status, or a rejected
  promise with its message. Every action is then one deterministic state
  transition of a class whose fields are the store's fields. The task store's
  `AddTask`, `UpdateTask` and `ToggleTask` also return the body they post or
  put. The login request's body (the credentials) is not modelled.
- The development/production switch of `login` is a parameter `development`.
- JavaScript's `Array.prototype.sort` is modelled as a stable insertion
  sort, as the language has required since ECMAScript 2019
  (`Seqs.SortByStable`). A comparator result of NaN counts as "equal".
- localStorage entries are described by how their text was written:
  `Json(v)` is `JSON.stringify(v)` and `Text(v)` is `String(v)`. Reading an
  entry back (`JSON.parse`, `Number`, truthiness) is defined on that
  description.

Where the code and its design description differ, the model follows the code:

- The date predicates compare raw time values, not calendar days.
  `isWithinNextWeek` has no lower bound, so every past date qualifies.
  `d == now` is within the next week but not overdue.
- `new Date(null)` is the epoch. So a task whose `dueDate` is `null` counts
  as overdue, and as due within the week, for any clock after 1970.
  `Dates.AbsentAndNullDates` states this.
- `toggleTask` on an absent id does not raise. The throw sits inside the
  action's `try`, so the action records "Task not found" and returns false.
- `getTasksByCategory` keeps store order. `Array.prototype.filter` is
  order-preserving.
- On load, `isAuthenticated` and `user` are read independently: a user
  entry that does not parse gives an authenticated session with a null user
  (`AuthStore.AuthenticatedWithoutUser`). So "isAuthenticated iff a user is
  present" is not an invariant of the code.
- The task store sends its requests to `http://localhost:3001/tasks`. The
  mock handlers serve `/api/tasks`. The two are modelled separately, and no
  property composes them.

## Model

| member | source | states |
|---|---|---|
| Dates.IsWithinNextWeek | src/utils/dateUtils.js:1-5 | a date within the next week is a parsable date |
| Dates.IsOverdue | src/utils/dateUtils.js:7-9 | every overdue date is also within the next week (the two predicates nest) |
| Dates.PastIsWithinNextWeek | src/utils/dateUtils.js:1-5 | no lower bound: every date at or before now is within the next week |
| Dates.Boundaries | src/utils/dateUtils.js:4-8 | `now` is within the week but not overdue; `now + 7 days` is within the week, one millisecond later is not; `now - 1` is overdue |
| Dates.AbsentAndNullDates | src/utils/dateUtils.js:1-9 | an undefined or unparsable date satisfies neither predicate; `null` is the epoch, overdue iff now > 0 |
| Seqs.Filter | src/stores/tasks.js:43 | every kept element is from the input and satisfies the predicate; every satisfying input element is kept; never longer |
| Seqs.FilterAppend | src/stores/tasks.js:163 | filtering distributes over concatenation, so kept elements keep their relative order |
| Seqs.FindIndex | src/stores/tasks.js:107 | the result is the first index whose element satisfies the predicate, or -1 exactly when none does |
| Seqs.SortBy | src/stores/tasks.js:24 | the sorted sequence is a permutation of the input |
| Seqs.SortBySorted | src/stores/tasks.js:24 | when every element has a key, the result is ordered by the comparator |
| Seqs.SortByStable | src/stores/tasks.js:24 | the sort is stable: the elements sharing any one key appear in their input order, so tasks with equal due dates keep store order |
| TaskStore.UpcomingTasks | src/stores/tasks.js:21-25 | a permutation of the pending tasks due within the next week, holding exactly those tasks, sorted ascending by due date |
| TaskStore.OverdueTasks | src/stores/tasks.js:28-32 | a permutation of the pending tasks due before now, holding exactly those tasks, sorted descending by due date |
| TaskStore.OverdueAreUpcoming | src/stores/tasks.js:21-32 | the overdue view is a sub-multiset of the upcoming view |
| TaskStore.CompletedTasks | src/stores/tasks.js:35-39 | a permutation of the completed tasks, holding exactly those tasks, sorted descending by completion time when all completion times parse |
| TaskStore.TasksByCategory | src/stores/tasks.js:42-44 | exactly the tasks whose category equals the argument |
| TaskStore.CategoryKeepsOrder | src/stores/tasks.js:42-44 | the category view distributes over concatenation: store order is kept |
| TaskStore.AddPayload | src/stores/tasks.js:73-77 | the posted body has `completed` false and `createdAt` now, overriding the caller; every other field is the caller's |
| TaskStore.UpdatePayload | src/stores/tasks.js:100-103 | the put body is the caller's updates with `updatedAt` now |
| TaskStore.TogglePayload | src/stores/tasks.js:131-136 | the put body flips `completed`; `completedAt` is non-null iff the new value is completed, and then is now; `updatedAt` is now; other fields unchanged |
| TaskStore.ToggleTwice | src/stores/tasks.js:131-136 | toggling a pending task twice gives `completed` false and `completedAt` null |
| TaskStore.ReplaceFirstWithId | src/stores/tasks.js:107-110 | same length; unchanged when no task has the id; otherwise only the first task with the id is replaced |
| TaskStore.RemoveId | src/stores/tasks.js:163 | the delete filter keeps exactly the tasks with another id, and is the identity when none has the id |
| TaskStore.Store.constructor | src/stores/tasks.js:10-16 | the store starts empty, not loading, without error |
| TaskStore.Store.FetchTasks | src/stores/tasks.js:50-63 | an answered fetch replaces the list and clears the error; a failed one keeps the list and records its message; loading ends false |
| TaskStore.Store.AddTask | src/stores/tasks.js:66-90 | sends the add payload; on success appends the server's record and returns true; on failure keeps the list, records the message, returns false; loading ends false |
| TaskStore.Store.UpdateTask | src/stores/tasks.js:93-119 | sends the update payload; on success replaces the first task with the id (or nothing) and returns true; on failure keeps the list and returns false |
| TaskStore.Store.ToggleTask | src/stores/tasks.js:122-151 | an absent id sends nothing, records "Task not found", returns false; otherwise sends the toggle payload and on success stores the reply at the task's index; `loading` never changes |
| TaskStore.Store.DeleteTask | src/stores/tasks.js:154-172 | a falsy id raises "Task ID is required" with nothing changed; otherwise on success removes every task with the id and returns true, on failure keeps the list and returns false |
| AuthStore.LoadIsAuthenticated | src/stores/auth.js:30 | authenticated iff a user entry is stored and its text is non-empty, whether or not it parses |
| AuthStore.LoadUser | src/stores/auth.js:19-31 | the loaded user is null when the entry is missing, empty or unparsable, and otherwise the parsed entry |
| AuthStore.LoadToken | src/stores/auth.js:32 | null exactly when no token is stored, otherwise a string; a token written with `String(v)` reads back as `String(v)`, so a string token reads back as itself |
| AuthStore.LoadLastActivity | src/stores/auth.js:35 | the loaded activity time is never 0, is null when the entry is missing or not a non-zero number, and otherwise is the entry's number |
| AuthStore.AuthenticatedWithoutUser | src/stores/auth.js:19-31 | every non-empty user entry that does not parse loads as authenticated with a null user, and such an entry exists |
| AuthStore.UserEmail | src/stores/auth.js:41 | an object user's email is its `email` property; a user that is not an object has none |
| AuthStore.IsAdmin | src/stores/auth.js:42 | admin iff the user is an object whose `role` is "admin" |
| AuthStore.SessionValid | src/stores/auth.js:43-46 | a valid session has a non-null, non-zero last activity |
| AuthStore.SessionExpiry | src/stores/auth.js:4 | for a non-zero last activity t, valid iff now < t + 86400000 |
| AuthStore.DevToken | src/stores/auth.js:82 | the mock token is "mock_token_" followed by the decimal digits of the clock |
| AuthStore.DevUser | src/stores/auth.js:77-81 | the mock user carries the accepted email and role "user", so it is not an admin |
| AuthStore.StorageAfterSetAuthData | src/stores/auth.js:114-116 | the three session keys are written and every other key is kept |
| AuthStore.StorageAfterClear | src/stores/auth.js:147-149 | the three session keys are removed and every other key is kept |
| AuthStore.ReloadAfterSetAuthData | src/stores/auth.js:107-116 | reloading from what `setAuthData` wrote restores the user (undefined becomes null), `String(token)`, authentication and the activity time |
| AuthStore.ReloadAfterClear | src/stores/auth.js:140-150 | reloading after a clear gives a signed-out session |
| AuthStore.ClearIdempotent | src/stores/auth.js:140-150 | clearing the storage twice equals clearing it once |
| AuthStore.Session.constructor | src/stores/auth.js:18-36 | the initial state is loaded from storage, not loading, without error |
| AuthStore.Session.SetAuthData | src/stores/auth.js:107-123 | user, token, authenticated and activity time now are set, and storage mirrors them |
| AuthStore.Session.ClearAuthData | src/stores/auth.js:140-150 | user, token, activity time and error are null, unauthenticated, and the three keys are removed |
| AuthStore.Session.Logout | src/stores/auth.js:125-137 | always succeeds, clears the session; loading ends false |
| AuthStore.Session.CheckSession | src/stores/auth.js:152-158 | false and cleared iff the session is invalid and authenticated; otherwise true with nothing changed |
| AuthStore.Session.UpdateActivity | src/stores/auth.js:160-163 | the activity time becomes now and is mirrored; nothing else changes |
| AuthStore.Session.ClearError | src/stores/auth.js:165-167 | the error is cleared |
| AuthStore.Session.HandleDevLogin | src/stores/auth.js:72-87 | the fixed test account logs in with the mock user and token; any other credentials raise "Credenciais inválidas" with nothing changed |
| AuthStore.Session.HandleProdLogin | src/stores/auth.js:91-105 | a non-ok reply raises "Invalid credentials" and a rejected one its message; an answer adopts `data.user` and `data.token` |
| AuthStore.Session.Login | src/stores/auth.js:51-71 | in development, succeeds iff the credentials are the test account's, else records "Credenciais inválidas"; in production, succeeds iff the reply is ok with a non-null body, then adopts its `user` and `token`, else records "Invalid credentials", the rejection's message or the TypeError of reading `.user`; a failure leaves the session and storage unchanged; loading ends false |
| MockHandlers.Parsed | src/mocks/handlers.js:7 | a missing entry reads as the empty list; only a garbled one fails |
| MockHandlers.NewRecord | src/mocks/handlers.js:18-23 | `id`, `createdAt` and `completed` defaults apply only where the body does not supply them; every body field is kept |
| MockHandlers.Merged | src/mocks/handlers.js:50-54 | the updates overwrite the stored fields, and the server's `updatedAt` wins |
| MockHandlers.MockApi.GetTasks | src/mocks/handlers.js:5-12 | 200 with the stored list, or `[]` when absent; 500 when unparsable |
| MockHandlers.MockApi.CreateTask | src/mocks/handlers.js:15-34 | appends exactly the new record and returns it with 201; 400 with storage unchanged on an unparsable body or store |
| MockHandlers.MockApi.UpdateTask | src/mocks/handlers.js:37-62 | 404 with storage unchanged for an unknown id; otherwise the first matching record becomes the merge and is returned with 200 |
| MockHandlers.MockApi.DeleteTask | src/mocks/handlers.js:65-82 | removes every record with the id and answers 200 `{success: true, id}` even when none matched |
| MockHandlers.UpdateTouchesOneRecord | src/mocks/handlers.js:44-56 | a PUT keeps the length and every other record |
| MockHandlers.DeleteKeepsOthers | src/mocks/handlers.js:70-72 | a DELETE keeps the other records in order and leaves none with the id |
| Router.PageTitle | src/router/index.js:51 | the title is the route's title, or "App", followed by " - Task Manager" |
| Router.Guard | src/router/index.js:46-67 | redirect to `/login` with `redirect` = the full path iff auth is required and absent; to `/dashboard` iff guest is required and the session is authenticated; otherwise proceed; a failure redirects to `/login` |
| Router.NoRedirectLoop | src/router/index.js:4-22 | each redirect lands on a route of the table that the guard lets through in the same session state |

## Left out

- `src/services/taskService.js` and `src/api/mock.js` are not part of this model. The first is a thin `fetch` wrapper. The second wraps a mock database whose behaviour is not visible.
- Network I/O, `response.json()`, the artificial delays and `console` logging: replaced by the `Reply` inputs, or dropped.
- `process.env.NODE_ENV`: replaced by the `development` parameter. The `debug` flag only governs logging.
- Concurrency between in-flight actions (the last response wins): each action is one atomic step. The intermediate `loading = true` is not observable in the model.
- Pinia's reactivity and `defineStore`; the `categories` and `priorities` constants, which come from a constants module outside this model.
- JSON serialisation is abstract. `JSON.stringify` drops properties whose value is undefined; the model keeps them (they still read as undefined).
- `Number()` of arbitrary text is not modelled: only number texts and the empty text convert. `JSON.parse` of a raw string entry is not modelled either: only number, boolean and null texts parse. The store never writes its keys in other forms.
- Reading `auth_token` back from a JSON-encoded entry yields `String` of the encoded value, not the JSON text. The store never writes that key as JSON.
- Which strings `Date` can parse is not computed: parsable dates are the `DateText` values by construction. Local time and daylight-saving effects of `setDate(getDate() + 7)` are not modelled: the model adds a fixed 7 days.
- `===` on two objects is reference equality in JavaScript. The model compares them structurally. Ids and categories are strings or numbers.
- Date strings are compared by instant. `DateText(ms)` keeps only the instant a date string stands for, not its text, so two different texts for one instant compare equal and a date text never equals the `Str` of the same characters. The model therefore assumes that ids and categories (`HasId`, `LacksId`, `IdIs`, `IdIsNot`, `TasksByCategory`) are never date-parsable strings; an id such as "2024-05-01" that the client supplies to POST is not matched by a later PUT or DELETE of that id in the model, while JavaScript matches it.
- Arrays as field values, and a stored `tasks` entry that parses to something other than an array.
- Numbers are integers (`Num(n: int)`): fractions, NaN, the infinities and -0 are not modelled. This affects `Truthy`, the TimeClip in `ToTime` and `===`; every number the core handles is an integer count of milliseconds or an id.
- AuthStore.Session.HandleProdLogin: the body it posts to `/api/login` (`JSON.stringify(credentials)`) is not modelled; only the reply is an input.
- `n.toString()` beyond 10^21, where JavaScript switches to exponent form.
- Storage errors (a full quota) thrown by `setItem` and rethrown by `setAuthData` are not modelled.
- vue-router's path matching (including the catch-all route) and `scrollBehavior`: `Router.MetaOf` matches only the literal paths `/login` and `/dashboard`.
- TaskStore.CompletedTasks: sortedness is stated only when every completed task's `completedAt` parses. When some time is NaN the comparator is inconsistent, and JavaScript leaves the order implementation-defined. The model fixes one stable order for that case.
