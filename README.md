# Task management, modelled in Dafny

This project models the logic of a CRUD task manager that comes in two
halves.

- The first half is a Next.js application backed by Supabase. It has:
  - API routes that validate task and account bodies, authenticate requests
    with a `Bearer` token, and read and write a `tasks` table and a `profiles`
    table;
  - a React hook (`useTasks`) that keeps the client's task list, filters and
    sort;
  - the task list, the dashboard, the task form and the login and signup
    forms.
- The second half is an older Express/Mongo API with a Redux admin panel. It
  has:
  - two JSON-Web-Token guards;
  - account handlers over an admin collection and a user collection;
  - task handlers over one task collection;
  - two Redux reducers.

Each source file is one Dafny module. Pure code is written as datatypes,
functions and lemmas. State that the source updates in place is a `class`
whose methods carry `modifies` clauses. This covers:

- the database tables and collections;
- the hook's state;
- the dashboard's modal state;
- the three forms' `formData`, `formErrors` and `touched`;
- browser storage;
- the Express request.

Each method is specified against the functions of its module. The properties
the application promises are proved as lemmas about those functions.

Foreign calls become function-typed parameters:

- Supabase's `auth.getUser`;
- `jwt.sign` and `jwt.verify`;
- `bcrypt.hash` and `bcrypt.compare`.

Whether a network or database call fails is a parameter. So are the new
row's id, the salt and the clock's reading.

Shared modules:

- `Wrappers`: `Option`, `Result` and `Outcome`.
- `JsString`: JavaScript's `trim`, its `\s` class, `toLowerCase` on ASCII,
  `includes`, `split(" ")` and `join(" ")`, and the order on strings.
- `JsValue`: a dynamic JSON value, with truthiness and `===`.
- `Constants`: the status and priority enums and their names.
- `Types`: the Next.js task, filter and sort records.
- `Sorting`: the sort keys, the comparator and a stable insertion sort.
- `TaskQuery`: the filter, search and count rules that the route, the hook,
  the task list and the dashboard share.

## Model

| member | source | states |
|---|---|---|
| Constants.ParseStatus | src/utils/constants.ts:7-11 | a parsed status has exactly the given name; `None` only when no status has that name |
| Constants.StatusNamesRoundTrip | src/utils/constants.ts:7-11 | parsing a status's name gives that status back |
| Constants.ParsePriority | src/utils/constants.ts:13-17 | a parsed priority has exactly the given name; `None` only when no priority has that name |
| Constants.PriorityNamesRoundTrip | src/utils/constants.ts:13-17 | parsing a priority's name gives that priority back |
| ErrorHandler.NewApiError | src/app/api/lib/error-handler.ts:3-11 | keeps the message; the name is "ApiError"; the status code is the one given, or 500 when none is given |
| ErrorHandler.HandleApiError | src/app/api/lib/error-handler.ts:13-27 | an `ApiError` gives its own status and `{error: message}`; any other thrown value gives 500 "Internal server error" |
| ErrorHandler.ThrowThenHandle | src/app/api/lib/error-handler.ts:3-27 | constructing an error and then handling it answers with its message and with its status, or the default |
| AuthMiddleware.BearerToken | src/app/api/lib/auth-middleware.ts:11 | the token is what follows the exact prefix "Bearer " |
| AuthMiddleware.AuthenticateRequest | src/app/api/lib/auth-middleware.ts:4-22 | with no `Bearer ` header: "No token provided"; with a verifier error or no user: "Invalid token"; with a thrown error: "Authentication failed"; otherwise the user; there is an error exactly when there is no user |
| AuthMiddleware.BearerHeaderRoundTrip | src/app/api/lib/auth-middleware.ts:6-18 | "Bearer " + token passes the prefix check, gives back the token, and succeeds exactly when the verifier accepts it |
| AuthMiddleware.LowerCaseSchemeRejected | src/app/api/lib/auth-middleware.ts:7-9 | the prefix check is case-sensitive: "bearer " is treated as no token |
| Validation.ValidateTaskData | src/app/api/lib/validation.ts:4-24 | passes exactly when the title, description, status and priority are all acceptable; a bad title is reported before anything else, and then a bad description; every report is a 400 |
| Validation.InvalidStatusReported | src/app/api/lib/validation.ts:13-16 | a good title and description with a status outside the enum give the status error |
| Validation.InvalidPriorityReported | src/app/api/lib/validation.ts:18-21 | a good title, description and status with a priority outside the enum give the priority error |
| Validation.ValidateAuthData | src/app/api/lib/validation.ts:26-50 | passes exactly when the fields are present, a signup's passwords are strictly equal, the email matches and the password has at least 6 characters; missing fields are reported first; every report is a 400 |
| Validation.SignupBodyPassesLogin | src/app/api/lib/validation.ts:26-50 | a body that passes as a signup also passes as a login |
| Validation.CompositePasswordsNeverMatch | src/app/api/lib/validation.ts:30-33 | under `===`, an object or array password never equals its confirmation, so such a signup is always rejected as mismatched |
| Helpers.GetStatusColor | src/utils/helpers.ts:24-35 | each status gets its own classes; the default classes go exactly to a string that is no status |
| Helpers.GetPriorityColor | src/utils/helpers.ts:37-48 | high and medium get their own classes; low and every unknown string get the low classes |
| Helpers.LowPriorityLooksUnknown | src/utils/helpers.ts:37-48 | an unknown priority is coloured exactly like `low` |
| Helpers.ValidateEmail | src/utils/helpers.ts:62-65 | the email test; the `ValidateEmailMatchesPattern` lemma pins it to the `^[^\s@]+@[^\s@]+\.[^\s@]+$` pattern in both directions |
| Helpers.ValidateEmailMatchesPattern | src/utils/helpers.ts:62-65 | the email test holds exactly when the string is whitespace-free, has one `@` and a non-empty local part, and its domain has a `.` with characters on both sides |
| Helpers.ValidatePassword | src/utils/helpers.ts:67-72 | valid exactly when the length is at least 6; otherwise the fixed message |
| Helpers.ValidateTaskTitle | src/utils/helpers.ts:74-79 | valid exactly when the trimmed title has at least 3 characters |
| Helpers.ValidateTaskDescription | src/utils/helpers.ts:81-86 | valid exactly when the length is at most 500, so 500 itself is valid |
| Helpers.TruncateText | src/utils/helpers.ts:103-106 | a text within the limit is returned unchanged; a longer one becomes its first `maxLength` characters followed by "..." |
| Helpers.TruncateIdempotent | src/utils/helpers.ts:103-106 | truncating twice gives what truncating once gives |
| Helpers.CapitalizeFirst | src/utils/helpers.ts:108-110 | the length stays the same; "" stays ""; only the first character is upper-cased |
| Helpers.CapitalizeFirstIdempotent | src/utils/helpers.ts:108-110 | capitalizing twice gives what capitalizing once gives |
| Helpers.Slugify | src/utils/helpers.ts:112-118 | lower-cases, drops symbols, turns runs of spaces, `_` and `-` into one `-`, and trims `-` at both ends; the `SlugifyIsSlug` and `SlugifyIdempotent` lemmas state what its result is |
| Helpers.SlugifyIsSlug | src/utils/helpers.ts:112-118 | a slug uses only `a-z`, `0-9` and `-`, has no `--`, and neither starts nor ends with `-` |
| Helpers.SlugifyIdempotent | src/utils/helpers.ts:112-118 | slugifying twice gives what slugifying once gives |
| TaskQuery.Filter | src/hooks/useTasks.ts:205-223 | keeps only matching elements and drops none of them: a sub-multiset that holds every match with its full multiplicity |
| TaskQuery.FilterExactly | src/hooks/useTasks.ts:205-223 | an element is in the result exactly when it is in the input and matches |
| TaskQuery.MatchesSearch | src/hooks/useTasks.ts:215-223 | the case-folded search test on the title or a non-empty description; `EmptySearchMatchesAll` and `TitlePieceMatches` state what it accepts |
| TaskQuery.Keep | src/hooks/useTasks.ts:205-223 | passes every filter that is set, with an empty search as no filter; `TasksHook.Narrowed` proves the filters applied in turn equal one filter by it |
| TaskQuery.EmptySearchMatchesAll | src/hooks/useTasks.ts:215-223 | an empty search term matches every task |
| TaskQuery.TitlePieceMatches | src/hooks/useTasks.ts:215-223 | a task whose lower-cased title contains the lower-cased term matches the search |
| TaskQuery.StatusCountsPartition | src/app/dashboard/page.tsx:31-36 | the three status counts add up to the number of tasks |
| Sorting.Compare | src/components/tasks/TaskList.tsx:77-81 | the comparator answers -1, 0 or 1; 0 exactly on equal keys; at most 0 exactly when the keys are in the requested order |
| Sorting.CompareDescNegatesAsc | src/components/tasks/TaskList.tsx:77-81 | the descending comparison is the exact negation of the ascending one |
| Sorting.KeyOrderFacts | src/hooks/useTasks.ts:226-233 | the order on sort keys is total, reflexive and antisymmetric |
| Sorting.SortBy | src/hooks/useTasks.ts:226-233 | sorting is a permutation of its input |
| Sorting.SortBySorted | src/hooks/useTasks.ts:226-233 | the result is ordered by the key, in the requested direction |
| Sorting.SortByStable | src/hooks/useTasks.ts:226-233 | elements with equal keys keep their relative order |
| TasksRoute.SortColumn | src/app/api/tasks/route.ts:19 | the `sortField` parameter, or `created_at` when it is absent or empty |
| TasksRoute.Ascending | src/app/api/tasks/route.ts:20-42 | ascending exactly when the direction, defaulting to `desc`, is `asc` |
| TasksRoute.ColumnKey | src/app/api/tasks/route.ts:42 | the order key of each real column; `ColumnKeyDefinedOnColumns` and `FieldColumnsAgree` state where it is defined and that it agrees with the hook's keys |
| TasksRoute.Selected | src/app/api/tasks/route.ts:23-39 | the caller's rows matching every set parameter; `TasksTable.Narrow` proves the chained query equals one filter by it |
| TasksRoute.ColumnKeyDefinedOnColumns | src/app/api/tasks/route.ts:42 | a row has a sort key for a column exactly when the column exists |
| TasksRoute.FieldColumnsAgree | src/app/api/tasks/route.ts:42 | every client sort field names a column, and ordering by that column uses the field's own key |
| TasksRoute.ShapeDescription | src/app/api/tasks/route.ts:66-72 | a string description is trimmed, and becomes null when blank; an absent or null one becomes null; any other value fails shaping |
| TasksRoute.ShapeStatus | src/app/api/tasks/route.ts:66-72 | a falsy status becomes `pending`; otherwise the stored status has the given name |
| TasksRoute.ShapePriority | src/app/api/tasks/route.ts:66-72 | a falsy priority becomes `medium`; otherwise the stored priority has the given name |
| TasksRoute.ShapeTask | src/app/api/tasks/route.ts:63-72 | for a validated body, the stored title is the trimmed title and is non-empty; shaping succeeds exactly when the description shapes |
| TasksRoute.ShapeIgnoresBodyOwner | src/app/api/tasks/route.ts:66-72 | a `user_id` in the body changes neither the validation nor the shaped row |
| TasksRoute.TasksTable.Narrow | src/app/api/tasks/route.ts:23-39 | the successive narrowing equals one filter of the table by the caller's ownership and the status, priority and search parameters: the selected rows in table order, each as often as in the table |
| TasksRoute.TasksTable.Get | src/app/api/tasks/route.ts:7-54 | 401 with the authentication error; 500 for a failing store or an unknown column; an authenticated request with a working store and a real column gets 200, with exactly the selected rows, in table order, then stably sorted by the column in the requested direction |
| TasksRoute.TasksTable.Post | src/app/api/tasks/route.ts:56-88 | 401 with the authentication error; an unreadable body gets 500 "Internal server error"; a failed validation or shaping is answered through the error mapping; a failing store gets 500 "Failed to create task"; a valid, shapeable body with a working store gets 201; any answer but 201 leaves the table unchanged; 201 appends and returns the shaped row, owned by the caller |
| ProfileRoute.NullIfFalsy | src/app/api/profile/route.ts:37-41 | a missing or empty value becomes null; any other value is kept |
| ProfileRoute.UpdateData | src/app/api/profile/route.ts:37-41 | the update holds exactly `full_name`, `avatar_url` and `updated_at`, with falsy inputs stored as null |
| ProfileRoute.ApplyUpdate | src/app/api/profile/route.ts:43-48 | the update sets the three fields and keeps the id, email and creation time |
| ProfileRoute.ApplyUpdateIdempotent | src/app/api/profile/route.ts:37-48 | sending the same update twice leaves what sending it once leaves |
| ProfileRoute.ProfilesTable.Get | src/app/api/profile/route.ts:6-27 | 401 with the authentication error; 200 with the caller's own row; 404 "Profile not found" when there is none or the store fails |
| ProfileRoute.ProfilesTable.Put | src/app/api/profile/route.ts:29-58 | 401 with the authentication error; 500 for an unreadable body; 500 "Failed to update profile" for a failing store or a caller without a row; otherwise 200; any answer but 200 leaves the table unchanged; 200 changes only the caller's row, to the update of it |
| UseTasks.ApplyPatch | src/hooks/useTasks.ts:186-188 | a key absent from the patch keeps its old value; a key present replaces it |
| UseTasks.MergeFilters | src/hooks/useTasks.ts:186-188 | each filter key is merged on its own |
| UseTasks.MergeFiltersLaws | src/hooks/useTasks.ts:186-188 | an empty patch changes nothing, and applying a patch twice equals applying it once |
| UseTasks.MergeSort | src/hooks/useTasks.ts:191-193 | the given sort keys win, and the others keep their values |
| UseTasks.CreatePayload | src/hooks/useTasks.ts:82-86 | the title and description are sent unchanged; an absent status is sent as pending and an absent priority as medium |
| UseTasks.AppendCreated | src/hooks/useTasks.ts:92-93 | the new list is the old one with the created task appended at the end |
| UseTasks.AppendCreatedAsWritten | src/hooks/useTasks.ts:92 | appending the response body adds exactly one entry |
| UseTasks.ResultAsWritten | src/hooks/useTasks.ts:93 | the data a create or an update returns, as written, is an envelope, not a task |
| UseTasks.AppendCreatedAsWrittenStoresEnvelope | src/hooks/useTasks.ts:92-93 | the appended entry is the `{task}` envelope, not a task, and the create returns that same envelope |
| UseTasks.ReplaceById | src/hooks/useTasks.ts:124-126 | the length stays the same; exactly the entries with the id are replaced, and the others stay |
| UseTasks.ReplaceByIdKeepsIds | src/hooks/useTasks.ts:124-126 | a replacement by the task's own id keeps every id and is idempotent |
| UseTasks.EntryId | src/hooks/useTasks.ts:125 | a task has its id; an envelope has none |
| UseTasks.ReplaceByIdAsWritten | src/hooks/useTasks.ts:124-126 | the length stays the same; exactly the entries with the id become the envelope, and the others stay |
| UseTasks.ReplaceByIdAsWrittenLosesTask | src/hooks/useTasks.ts:124-128 | as written, the updated task becomes an envelope: no entry keeps its id, so a second update of it leaves the list unchanged |
| UseTasks.RemoveById | src/hooks/useTasks.ts:154 | exactly the entries with the id are removed, and the list never grows |
| UseTasks.RemoveByIdLaws | src/hooks/useTasks.ts:154 | removing an absent id changes nothing, and removing twice equals removing once |
| UseTasks.FindById | src/hooks/useTasks.ts:172 | `None` exactly when no task has the id; otherwise the task at the first position holding that id |
| UseTasks.ToggledStatus | src/hooks/useTasks.ts:175-178 | completed becomes pending and everything else becomes completed |
| UseTasks.ToggleTwice | src/hooks/useTasks.ts:175-178 | toggling twice restores pending and completed; it turns in_progress into pending |
| UseTasks.UpdateBody | src/hooks/useTasks.ts:116-119 | the body sent holds exactly the given title, description, status and priority under their names, plus `updated_at` |
| UseTasks.ToggleRejectedAsWritten | src/hooks/useTasks.ts:180 | as written, the toggle's `{ status }` body fails the route's validation with the 400 title error |
| UseTasks.ToggleInput | src/hooks/useTasks.ts:172-180 | the intended toggle sends the task's title, description and priority with the toggled status |
| UseTasks.ToggleInputAccepted | src/hooks/useTasks.ts:172-180 | the intended toggle of a task with a non-blank title passes the route's validation |
| UseTasks.StatusNameNonEmpty | src/hooks/useTasks.ts:40-46 | every status name is truthy, so a set status filter is always sent |
| UseTasks.FetchQuery | src/hooks/useTasks.ts:40-46 | the query parameters `fetchTasks` appends; `FetchQueryAgreesWithClient` proves the route selects with them exactly the caller's tasks the client-side filter keeps, ordered by the same field and direction |
| UseTasks.FetchQueryAgreesWithClient | src/hooks/useTasks.ts:40-46 | a row the server selects for the hook's query is exactly a row the client's filter keeps; the server sorts by the same field, in the same direction, with the same key |
| UseTasks.TasksHook.constructor | src/hooks/useTasks.ts:20-32 | an empty list, not loading, no error, and the given filters and sort or the defaults |
| UseTasks.TasksHook.FetchTasks | src/hooks/useTasks.ts:35-55 | sends the query built from the filters and sort; success stores the data; failure keeps the list and records the message or the default |
| UseTasks.TasksHook.CreateTask | src/hooks/useTasks.ts:58-102 | sends the defaulted payload; success appends the created task and returns it (the corrected version of the useTasks.ts:92 finding); failure keeps the list and records the error |
| UseTasks.TasksHook.UpdateTask | src/hooks/useTasks.ts:107-139 | sends exactly `UpdateBody(input, stamp)`, that is the input's fields by name plus `updated_at` (the ISO time stamp, a parameter); success replaces the entries with the id by the updated task and returns it (the corrected version of the useTasks.ts:124 finding); failure keeps the list and records the error |
| UseTasks.TasksHook.DeleteTask | src/hooks/useTasks.ts:142-165 | success removes the entries with the id; failure keeps the list and records the error |
| UseTasks.TasksHook.ToggleTaskStatus | src/hooks/useTasks.ts:170-183 | an unknown id does nothing and sends nothing; otherwise it sends the toggled status (with the task's other fields, the corrected version of the useTasks.ts:180 finding); a successful reply replaces the task, a failed one keeps the list and records the error; either way the PUT body is `UpdateBody` of that input and loading ends |
| UseTasks.TasksHook.UpdateFilters | src/hooks/useTasks.ts:186-188 | the filters become the merge of the old filters and the patch; nothing else changes |
| UseTasks.TasksHook.UpdateSort | src/hooks/useTasks.ts:191-193 | the sort becomes the merge of the old sort and the patch; nothing else changes |
| UseTasks.TasksHook.ClearFilters | src/hooks/useTasks.ts:196-198 | the filters become empty; nothing else changes |
| UseTasks.TasksHook.Narrowed | src/hooks/useTasks.ts:202-223 | the status, priority and search filters applied in turn equal one filter by all of them: the kept tasks in list order, each as often as in the list |
| UseTasks.TasksHook.GetProcessedTasks | src/hooks/useTasks.ts:201-236 | the one-pass filtered tasks, stably sorted by the sort field and direction, so sorted and a sub-multiset; the stored list is untouched |
| TaskList.FilteredTasks | src/components/tasks/TaskList.tsx:38-56 | a task is shown exactly when it matches the search term and the set filters; the result is a sub-multiset of the tasks |
| TaskList.FilteredTasksAgreeWithHook | src/components/tasks/TaskList.tsx:38-56 | the list's filter equals the hook's filter once the term is taken as the search |
| TaskList.ListKey | src/components/tasks/TaskList.tsx:66-75 | the text fields are compared as text, and the two dates as timestamps |
| TaskList.ListCompareFacts | src/components/tasks/TaskList.tsx:77-81 | the comparator returns -1, 0 or 1; descending is its exact negation; it is antisymmetric |
| TaskList.TitlesCompareIgnoringCase | src/components/tasks/TaskList.tsx:72-75 | titles that differ only in ASCII case compare equal |
| TaskList.NamesAreLowerCase | src/components/tasks/TaskList.tsx:66-75 | lower-casing changes no status or priority name, so the list orders those fields as the hook does |
| TaskList.SortedTasks | src/components/tasks/TaskList.tsx:59-82 | exactly the shown tasks, as a sub-multiset of the tasks, never more of them, ordered by the chosen field and direction |
| TaskList.SortedTasksStable | src/components/tasks/TaskList.tsx:59-82 | tasks with equal keys keep their relative order |
| TaskList.ShownAtMostTotal | src/components/tasks/TaskList.tsx:376 | the shown count never exceeds the total; with no term and no filter, everything is shown |
| TaskList.HandleSortChange | src/components/tasks/TaskList.tsx:113-120 | the field becomes the clicked one; the direction is desc exactly when the click is on the current field while it is ascending |
| TaskList.SortClicksAlternate | src/components/tasks/TaskList.tsx:113-120 | repeated clicks on one field alternate the direction; a click on a new field starts ascending |
| TaskList.HandleStatusFilterChange | src/components/tasks/TaskList.tsx:91-100 | sets or clears the status filter only |
| TaskList.HandlePriorityFilterChange | src/components/tasks/TaskList.tsx:102-111 | sets or clears the priority filter only |
| TaskList.HandleSearchChange | src/components/tasks/TaskList.tsx:84-89 | stores the term locally and as the search filter; the other filters are kept |
| TaskList.SearchChangeKeepsListAndHookInStep | src/components/tasks/TaskList.tsx:84-89 | after a search change, the list and the hook keep the same tasks |
| TaskList.CountTasks | src/components/tasks/TaskList.tsx:173-179 | counts over the unfiltered tasks; each count is the number of exact matches; the three statuses add up to the total |
| Dashboard.ComputeStats | src/app/dashboard/page.tsx:31-38 | the total is the number of tasks; each count is the number of exact matches; the statuses add up to the total; high priority is at most the total |
| Dashboard.CompletionRate | src/app/dashboard/page.tsx:40-41 | 0 for no tasks; otherwise 100·completed/total rounded half up, in [0, 100]; 100 when every task is completed and 0 when none is |
| Dashboard.RoundFacts | src/app/dashboard/page.tsx:40-41 | the rounding formula lies between 0 and 100 and is the nearest integer, with halves rounded up |
| Dashboard.CompletionRateOfTasks | src/app/dashboard/page.tsx:31-41 | a non-empty list with all tasks completed gives 100, and a list with none completed gives 0 |
| Dashboard.NoneCompleted | src/app/dashboard/page.tsx:34 | with no completed task, the completed count is 0 |
| Dashboard.DashboardPage.constructor | src/app/dashboard/page.tsx:22-28 | the modal is closed, no task is being edited, no filters are set, and the sort is created_at/desc |
| Dashboard.DashboardPage.EditTask | src/app/dashboard/page.tsx:50-54 | opens the modal on the task |
| Dashboard.DashboardPage.NewTaskAsWritten | src/app/dashboard/page.tsx:273 | opens the modal and leaves `editingTask` as it was |
| Dashboard.DashboardPage.NewTask | src/app/dashboard/page.tsx:273 | opens the modal on an empty form |
| Dashboard.DashboardPage.CloseModal | src/app/dashboard/page.tsx:311 | closes the modal and keeps `editingTask` |
| Dashboard.DashboardPage.Cancel | src/app/dashboard/page.tsx:318-321 | closes the modal and clears `editingTask` |
| Dashboard.DashboardPage.SetFilters | src/app/dashboard/page.tsx:302 | replaces the filters only |
| Dashboard.DashboardPage.SetSort | src/app/dashboard/page.tsx:303 | replaces the sort only |
| Dashboard.StaleEditAsWritten | src/app/dashboard/page.tsx:50-54 | an edit, a save that closes the modal, then "New Task" opens the form on the old task |
| Dashboard.FreshFormAfterEdit | src/app/dashboard/page.tsx:273 | with the corrected button, the same steps open an empty form |
| TaskForm.ValidateField | src/components/tasks/TaskForm.tsx:50-76 | a blank title is required; a trimmed title under 3 characters is too short; a description over 500 characters is too long; any other field gives "" |
| TaskForm.ValidateFieldAgreesWithHelpers | src/components/tasks/TaskForm.tsx:50-76 | the form's title and description rules accept exactly what the shared helpers accept |
| TaskForm.InitialData | src/components/tasks/TaskForm.tsx:22-27 | the task's own values, or an empty title and description with pending/medium |
| TaskForm.ApplyInput | src/components/tasks/TaskForm.tsx:78-85 | an input changes only its own field |
| TaskForm.CreateSubmission | src/components/tasks/TaskForm.tsx:132-142 | sends the trimmed title, the trimmed description, the status and the priority |
| TaskForm.UpdateSubmission | src/components/tasks/TaskForm.tsx:121-131 | sets the trimmed title, the trimmed description, the status and the priority |
| TaskForm.SubmissionPassesServerGuards | src/components/tasks/TaskForm.tsx:115-142 | a title the form accepts reaches the server trimmed, with at least 3 characters, and passes the server's title and description checks |
| TaskForm.TaskFormState.constructor | src/components/tasks/TaskForm.tsx:22-37 | the initial values, no errors, nothing touched |
| TaskForm.TaskFormState.TaskChanged | src/components/tasks/TaskForm.tsx:39-48 | a new task reloads the form from it; with no task the form is kept |
| TaskForm.TaskFormState.HandleInputChange | src/components/tasks/TaskForm.tsx:78-85 | applies the input; revalidates the field only when it is already touched |
| TaskForm.TaskFormState.HandleTitleBlur | src/components/tasks/TaskForm.tsx:87-91 | touches the title and stores its error |
| TaskForm.TaskFormState.HandleDescriptionBlur | src/components/tasks/TaskForm.tsx:87-91 | touches the description and stores its error |
| TaskForm.TaskFormState.IsFormValid | src/components/tasks/TaskForm.tsx:174-177 | no recorded title or description error and a non-blank trimmed title; `HandleSubmit` ensures it holds after a submit exactly when a call is made |
| TaskForm.TaskFormState.HandleSubmit | src/components/tasks/TaskForm.tsx:93-144 | touches and validates both fields; calls nothing when either has an error; the form is valid exactly when a call is made; an existing task gets an update of its id; otherwise a create; every call closes the modal |
| TaskForm.TaskFormState.HandleReset | src/components/tasks/TaskForm.tsx:146-172 | restores the initial values, and clears the errors and the touched flags |
| RememberedEmail.BrowserStorage.Remember | src/components/auth/LoginForm.tsx:105-110 | stores the email when "remember me" is set, and removes it otherwise |
| RememberedEmail.OnMount | src/components/auth/LoginForm.tsx:117-124 | a non-empty stored email fills the field and ticks "remember me"; otherwise both are kept |
| RememberedEmail.RememberThenMount | src/components/auth/LoginForm.tsx:105-124 | a remembered email comes back on the next mount; a forgotten one does not |
| LoginForm.ValidEmailNotBlank | src/components/auth/LoginForm.tsx:47-53 | an email that passes the pattern is never blank |
| LoginForm.EmailFieldErrorMeaning | src/components/auth/LoginForm.tsx:47-53 | "required" exactly when blank; "invalid" exactly when not blank and failing the pattern; "" exactly when the pattern holds |
| LoginForm.PasswordFieldErrorMeaning | src/components/auth/LoginForm.tsx:55-61 | "required" exactly when blank; "too short" exactly when not blank and under 6 characters; "" otherwise |
| LoginForm.ValidateField | src/components/auth/LoginForm.tsx:43-65 | the email and password rules by field name; any other name gives "" |
| LoginForm.FieldRulesAgainstHelpers | src/components/auth/LoginForm.tsx:43-65 | the email rule accepts exactly what the shared email test accepts; the password rule is stricter than the shared helper, which accepts six spaces |
| LoginForm.NoErrorsMeaning | src/components/auth/LoginForm.tsx:85-100 | no errors exactly when the email passes and the password is non-blank and long enough |
| LoginForm.SetField | src/components/auth/LoginForm.tsx:67-74 | changes only the named field |
| LoginForm.FieldError | src/components/auth/LoginForm.tsx:43-65 | the error is the field's own rule |
| LoginForm.LoginFormState.constructor | src/components/auth/LoginForm.tsx:14-29 | empty data, no errors, nothing touched, not remembered |
| LoginForm.LoginFormState.Mount | src/components/auth/LoginForm.tsx:117-124 | loads the remembered email as in `OnMount`; nothing else changes |
| LoginForm.LoginFormState.SetRememberMe | src/components/auth/LoginForm.tsx:14-29 | sets the flag only |
| LoginForm.LoginFormState.HandleInputChange | src/components/auth/LoginForm.tsx:67-74 | stores the value; revalidates the field only when it is already touched |
| LoginForm.LoginFormState.HandleBlur | src/components/auth/LoginForm.tsx:76-80 | touches the field and stores its error |
| LoginForm.LoginFormState.IsFormValid | src/components/auth/LoginForm.tsx:126-130 | no recorded error and neither field blank; `HandleSubmit` ensures it holds after a submit exactly when login is called |
| LoginForm.LoginFormState.HandleSubmit | src/components/auth/LoginForm.tsx:82-115 | touches both fields and stores their errors; login is called exactly when there are none, which is exactly when the form is valid; since `login` always resolves, after every call the email is remembered or forgotten per the flag, even when the login was refused; without a call storage is untouched |
| SignupForm.ValidateField | src/components/auth/SignupFrom.tsx:56-86 | the rule of each of the three fields; `RulesMatchLogin` pins the email and password rules to the login form's, `ConfirmRule` the confirmation rule in all three directions |
| SignupForm.RulesMatchLogin | src/components/auth/SignupFrom.tsx:56-74 | the email and password rules are the login form's |
| SignupForm.ConfirmRule | src/components/auth/SignupFrom.tsx:76-82 | "please confirm" exactly when blank; "do not match" exactly when not blank and different; "" exactly when not blank and equal |
| SignupForm.NoErrorsMeaning | src/components/auth/SignupFrom.tsx:106-126 | no errors exactly when all three rules pass |
| SignupForm.Set | src/components/auth/SignupFrom.tsx:88-95 | changes only the named field |
| SignupForm.Touch | src/components/auth/SignupFrom.tsx:97-101 | touches only the named field |
| SignupForm.SignupFormState.constructor | src/components/auth/SignupFrom.tsx:18-37 | empty data, no errors, nothing touched, no success view |
| SignupForm.SignupFormState.Mount | src/components/auth/SignupFrom.tsx:144-151 | loads the remembered email as in `OnMount`; nothing else changes |
| SignupForm.SignupFormState.SetRememberMe | src/components/auth/SignupFrom.tsx:18-37 | sets the flag only |
| SignupForm.SignupFormState.HandleInputChange | src/components/auth/SignupFrom.tsx:88-95 | stores the value; revalidates the field only when it is already touched, against the password as it was |
| SignupForm.SignupFormState.HandleBlur | src/components/auth/SignupFrom.tsx:97-101 | touches the field and stores its error |
| SignupForm.SignupFormState.IsFormValid | src/components/auth/SignupFrom.tsx:153-159 | no recorded error and none of the three fields blank; `HandleSubmit` ensures it holds after a submit exactly when signup is called |
| SignupForm.SignupFormState.HandleSubmit | src/components/auth/SignupFrom.tsx:103-142 | touches all three fields and stores their errors; signup is called exactly when there are none, which is exactly when the form is valid; since `signup` always resolves, every call, refused or not, shows the success view for the submitted email and applies "remember me"; without a call view and storage stay |
| SignupForm.SignupFormState.SignUpWithDifferentEmail | src/components/auth/SignupFrom.tsx:197-205 | resets the data, errors and touched flags, and hides the success view |
| ExpressAuth.ExtractToken | server/middleware/authenticateUser.ts:6-7 | no token exactly when there is no header, or a non-empty header without a space; an empty header yields the empty token; a token holds no space |
| ExpressAuth.SecondWordIsToken | server/middleware/authenticateUser.ts:6-7 | the token is always the header's second word |
| ExpressAuth.SchemeNeverChecked | server/middleware/authenticateUser.ts:7 | `scheme token` yields `token` for every scheme |
| ExpressAuth.Authenticate | server/middleware/authenticateUser.ts:4-23 | 401 exactly when there is no token; 500 exactly when there is a token but no secret; it passes exactly when the token verifies, with the payload's user; otherwise 403 with the verifier's message |
| ExpressAuth.VerifiedTokenPasses | server/middleware/authenticateUser.ts:6-18 | a verified token passes with its user, whatever the scheme |
| ExpressAuth.Request.constructor | server/middleware/authenticateUser.ts:4-7 | a request with its header, no user, and `next` not yet called |
| ExpressAuth.Guard | server/middleware/authenticateUser.ts:4-23 | on success sets `req.user`, calls `next` once and sends nothing; otherwise sends the decision's answer and leaves the request unchanged |
| ExpressAuth.AuthenticateUser | server/middleware/authenticateUser.ts:4-23 | the guard's decision and effects |
| ExpressAuth.AuthenticateAdmin | server/middleware/authenticateUser.ts:25-44 | the very same decision and effects as `authenticateUser` |
| UserController.FindFirst | server/controllers/user.ts:19 | `findOne`: nothing exactly when no document matches; otherwise the first match |
| UserController.SecretOrEmpty | server/controllers/user.ts:40 | the secret, or "" when it is unset |
| UserController.IssueLogin | server/controllers/user.ts:121-151 | a signed token gives the login answer with that token and account type; a signer that throws gives 500 with its message |
| UserController.AccountStores.constructor | server/model/admin.ts:1-38 | the two stores as given |
| UserController.AccountStores.Signup | server/controllers/user.ts:13-57 | searches the admins only; a taken email gives "User already exists" and stores nothing; otherwise the admin with the hashed password is appended (when the unawaited save lands) and answered 201 with a token; the users are never touched |
| UserController.AccountStores.AddUser | server/controllers/user.ts:59-100 | searches the users only; a taken email gives "User already exists"; otherwise the user, stamped with the caller as its admin, is appended (when saved) and answered 201; a signing failure gives a 500, after the save |
| UserController.AccountStores.Login | server/controllers/user.ts:102-156 | users first, then admins; 404 when neither matches; 400 on a wrong password; otherwise a token for `{userId, email}`; the type is "admin" exactly when the match is an admin, whose answer carries no user |
| UserController.AccountStores.GetUsers | server/controllers/user.ts:158-169 | exactly the users whose admin is the caller, in store order and each as often as in the store |
| UserController.SignupThenLogin | server/controllers/user.ts:13-156 | with a hash that its compare accepts, a fresh signup can log in as an admin with the same token |
| UserController.AppendedIsFound | server/controllers/user.ts:19-34 | after an append, a lookup of an email that no earlier document has finds the new document |
| UserController.SignupIgnoresUsers | server/controllers/user.ts:19 | an email held by a user can still sign up as an admin, and then both stores hold it |
| UserController.AddThenList | server/controllers/user.ts:59-169 | a user an admin adds appears in that admin's list |
| TaskController.CreatedDocument | server/controllers/task.ts:10-13 | a document exactly when the body has a non-empty name and a due date (the schema's `required` paths, server/model/task.ts:19-20); its admin is the caller; the other fields come from the body |
| TaskController.BodyAdminIdIgnored | server/controllers/task.ts:10-13 | an `adminId` in the body changes nothing |
| TaskController.EditDocument | server/controllers/task.ts:47-54 | sets only the name, due date and status that the body carries; every other field stays |
| TaskController.EditFirst | server/controllers/task.ts:47-54 | the collection keeps its number of documents |
| TaskController.EditFirstSpec | server/controllers/task.ts:47-54 | exactly the first document with the id is edited; every id and every other document stay |
| TaskController.EditMissingIsNoOp | server/controllers/task.ts:47-61 | an id no document has changes nothing |
| TaskController.EditIdempotent | server/controllers/task.ts:47-54 | the same edit twice leaves what it left once |
| TaskController.TaskCollection.constructor | server/model/task.ts:1-29 | the collection as given |
| TaskController.TaskCollection.AddTask | server/controllers/task.ts:5-21 | appends the created document and answers 201 with it; a store fault, or a document the schema rejects (a missing or empty name, a missing due date), gives 500 and stores nothing |
| TaskController.TaskCollection.GetTask | server/controllers/task.ts:23-40 | every document, with no owner scoping; 500 on a store fault |
| TaskController.TaskCollection.EditTask | server/controllers/task.ts:42-66 | no ownership check; edits the first document with the id; answers 200 with that document as it was before the edit, or with null (when nothing changes); 500 on a store fault |
| TaskController.TaskCollection.GetUserTask | server/controllers/task.ts:68-87 | exactly the documents assigned to the caller, in collection order and each as often as stored; 500 on a store fault |
| TaskController.AddThenList | server/controllers/task.ts:5-87 | a task an admin adds for a user appears in that user's list and in the unscoped list |
| TaskReducer.Current | client/src/state/reducers/taskReducer.ts:19 | the given state, or the initial state when it is `undefined` |
| TaskReducer.TaskReducerAsWritten | client/src/state/reducers/taskReducer.ts:40-45 | a failure clears `loading` and stores `action.task` as the error: `undefined` |
| TaskReducer.FailureMessageLostAsWritten | client/src/state/reducers/taskReducer.ts:40-45 | as written, failures with different messages leave the same state, with no error |
| TaskReducer.TaskReducer | client/src/state/reducers/taskReducer.ts:19-49 | a request sets `loading` only; both successes replace the list and clear `loading` and `error`; a failure keeps the list, clears `loading` and records its message; other actions change nothing |
| TaskReducer.InitialisationGivesInitialState | client/src/state/reducers/taskReducer.ts:12-16 | the store's first call yields the empty list, not loading, and no error |
| TaskReducer.SuccessKindsAgree | client/src/state/reducers/taskReducer.ts:26-39 | `FETCH_TASK_SUCCESS` and `GET_ALL_TASK` are the same transition |
| TaskReducer.RequestThenOutcome | client/src/state/reducers/taskReducer.ts:21-45 | after a request, success gives the fetched list and failure gives the old list with the message, both not loading |
| AuthReducer.Current | client/src/state/reducers/authReducer.ts:15-18 | the given state, or the empty initial state |
| AuthReducer.Spread | client/src/state/reducers/authReducer.ts:27-29 | the keys of both; a user's field wins over the state's |
| AuthReducer.AuthReducer | client/src/state/reducers/authReducer.ts:18-38 | a request sets `loggingIn` and `user` and keeps the rest; a success spreads the user and then sets `loggedIn` and `authenticated`; fetching changes only `user`; other actions change nothing |
| AuthReducer.RequestThenSuccessKeepsLoggingIn | client/src/state/reducers/authReducer.ts:20-32 | a success does not reset `loggingIn` or `user` |
| AuthReducer.FlagsWrittenAfterSpread | client/src/state/reducers/authReducer.ts:26-32 | no field of the user can switch `loggedIn` or `authenticated` off |
| AuthReducer.FetchUserChangesOnlyUser | client/src/state/reducers/authReducer.ts:33-34 | every other key keeps its value |

## Left out

- Rendering, styling, routing and navigation are not modelled. This covers every JSX tree, the `router.push` calls, the toasts and `server/routes/*.ts`. The routes file is read only to know which guard fronts which handler.
- `useAuth`, the auth route handlers, Supabase Auth and the axios client are not modelled. The user they yield is an input, or the result of a verifier parameter.
- bcrypt, `jsonwebtoken`, `supabase.auth.getUser`, Mongo and PostgREST are modelled as function parameters and in-memory sequences. Their internals are not part of this model.
- PostgREST gives '%', '_' and ',' special meaning inside the raw search string (src/app/api/tasks/route.ts:37). The model treats search as a plain substring test.
- Postgres collation is modelled as code-point order on text. The order among rows with equal keys is the store's own; the model keeps insertion order.
- Case mapping is ASCII only. String length and string order count Unicode characters (code points). JavaScript's full Unicode `toLowerCase`/`toUpperCase`, its UTF-16 `length` and its UTF-16 code-unit order are not modelled.
- Dates are integer timestamps, and `new Date().toISOString()` becomes a `stamp` string parameter where a request body carries it. `Date` parsing in the list sort, `formatDate` and `formatDateTime` are left out, because they depend on the clock and the locale.
- `generateId` and `debounce` are left out, because they depend on randomness and timers.
- Dashboard.CompletionRate: `Math.round` over a float division is modelled with exact rational rounding, with halves rounded up. IEEE arithmetic may differ at the .5 boundaries.
- The email and slug regular expressions are written as character-class predicates, not run by a regex engine.
- The forms' effects that clear an auth error when an input changes, and the loading flags of `useAuth`, are not modelled. The error they clear belongs to `useAuth`.
- TaskForm.TaskFormState.HandleSubmit: the form's own `useTasks` instance is separate from the dashboard's. The model returns the call the form makes and does not run it against a hook.
- Request bodies of the Express API, of the forms and of the profile `PUT` are modelled as strings for every field. A number or object sent where a string is expected is not modelled; in the profile route `body.full_name || null` would pass such a value on to the database as it is (src/app/api/profile/route.ts:38-39). The Next.js task validators do model dynamic JSON values.
- Sorting by `status` or `priority` compares their names as text. If the columns are Postgres enums, `ORDER BY` uses the declaration order instead; src/lib/supabase.ts:27-28 declares only TypeScript unions, so the column types are not known here.
- UseTasks.TasksHook.CreateTask: follows the corrected version of the useTasks.ts:92 finding. It stores and returns the created task, where the source stores and returns the `{task}` envelope; AppendCreatedAsWritten and ResultAsWritten model the source.
- UseTasks.TasksHook.UpdateTask: follows the corrected version of the useTasks.ts:124 finding. It stores and returns the updated task, where the source stores and returns the `{task}` envelope; ReplaceByIdAsWritten and ResultAsWritten model the source.
- UseTasks.TasksHook.ToggleTaskStatus: follows the corrected versions of the useTasks.ts:124 and useTasks.ts:180 findings. It sends the task's title, description and priority with the new status, where the source sends `{ status }` alone and gets a 400; ToggleRejectedAsWritten models the source.
- TaskController.TaskCollection.AddTask: a document the schema rejects answers 500 with Mongoose's validation message. The model states only that the answer is a 500, because the message text comes from the library.
- TaskController.TaskDoc: the `createdAt` and `updatedAt` fields that the schema's `timestamps: true` adds, and that `edit_task` refreshes, are not modelled. No controller branches on them; the documents the controllers answer with therefore lack them, since the clock they come from is left out.
- Mongoose's casting of ids to `ObjectId`, and its handling of an `undefined` filter value, are not modelled. `req.user` and `taskId` are taken as strings.
- UserController.AccountStores.AddUser: the value of the signed token is not modelled, since it is never sent; a signing failure is modelled as a 500.
- An exception thrown by `next()` inside the Express guard's `try` is not modelled. Passing the request on is modelled as a counter.
- `client/src/types/User.ts` is not part of this model. A user object is a map from field names to text.
- Concurrency between requests, and last-write-wins between tabs, are not modelled.
- The `tasks/[id]` route is not modelled beyond the body its `PUT` validates (src/app/api/tasks/[id]/route.ts:46-47), which the toggle finding uses. The auth pages, the dead `productAction.js` and the Redux store setup are outside the modelled core.

## Findings

| source | as written | input that shows it | evidently intended | confidence | as-written member | corrected member |
|---|---|---|---|---|---|---|
| src/hooks/useTasks.ts:92 | on a successful create the hook appends `response.data` and returns it as `data` (line 93), but the POST route answers `{task}` (src/app/api/tasks/route.ts:84), so the list gets the envelope, not the task, and so does the caller | any successful `createTask` | append and return `response.data.task` | not executed | UseTasks.AppendCreatedAsWrittenStoresEnvelope | UseTasks.AppendCreated |
| src/hooks/useTasks.ts:124 | on a successful update the hook puts `response.data` in place of the task and returns it (line 128), but the PUT route answers `{task}` (src/app/api/tasks/[id]/route.ts:80), so the task becomes an envelope with no `id`, and later updates of it no longer reach the list | any successful `updateTask`, then a second one on the same id | replace by and return `response.data.task` | not executed | UseTasks.ReplaceByIdAsWrittenLosesTask | UseTasks.ReplaceByIdKeepsIds |
| src/hooks/useTasks.ts:180 | the toggle sends `{ status }` alone, and the PUT route runs `validateTaskData` (src/app/api/tasks/[id]/route.ts:47), which demands a title, so every toggle is answered 400 "Title is required and must be a non-empty string" | toggle any task of the list | send the task's title, description and priority with the new status | not executed | UseTasks.ToggleRejectedAsWritten | UseTasks.ToggleInputAccepted |
| src/app/dashboard/page.tsx:273 | "New Task" opens the modal without clearing `editingTask`; closing the modal after a save keeps it (line 311), so a later "New Task" opens the form on the old task | edit a task, save it, then click "New Task" | clear `editingTask` when opening a new task | not executed | Dashboard.StaleEditAsWritten | Dashboard.FreshFormAfterEdit |
| client/src/state/reducers/taskReducer.ts:44 | `FETCH_TASK_FAILURE` stores `action.task`, which a failure action does not carry, so the error is always `undefined` | dispatch `FETCH_TASK_FAILURE` with error "x" | store `action.error` | not executed | TaskReducer.FailureMessageLostAsWritten | TaskReducer.TaskReducer |
