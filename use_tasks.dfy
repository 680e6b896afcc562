/**
 * `src/hooks/useTasks.ts`: the client-side task list of the Next.js app. The
 * hook's React state is the `TasksHook` object; each request's answer from the
 * API is a parameter of the method that sends it.
 */
module UseTasks {
  import opened Wrappers
  import opened Constants
  import opened Types
  import opened Sorting
  import opened TaskQuery
  import JsString
  import JsValue
  import ErrorHandler
  import Validation
  import TasksRoute

  /** The answer to a request: the response data, or the message of the error
      axios rejects with (`None` when what was thrown is not an `Error`). */
  datatype Reply<T> = Delivered(data: T) | Rejected(message: Option<string>)

  /** What the tasks routes answer on success: `{ task }`. */
  datatype TaskEnvelope = TaskEnvelope(task: Task)

  /** `{ data, error, isLoading }`. */
  datatype ApiResponse<T> = ApiResponse(data: Option<T>, error: Option<string>, isLoading: bool)

  /** One field of a `Partial<TaskFilters>`: left out, or given (possibly as `undefined`). */
  datatype Patch<T> = Unchanged | Assign(value: Option<T>)

  datatype FiltersPatch = FiltersPatch(status: Patch<Status>, priority: Patch<Priority>, search: Patch<string>)

  datatype SortPatch = SortPatch(field: Option<SortField>, direction: Option<Direction>)

  function ApplyPatch<T>(old_: Option<T>, p: Patch<T>): (r: Option<T>)
    ensures p.Unchanged? ==> r == old_
    ensures p.Assign? ==> r == p.value
  {
    match p
    case Unchanged => old_
    case Assign(v) => v
  }

  /** `{ ...prev, ...newFilters }`: the given fields replace, the others stay. */
  function MergeFilters(prev: TaskFilters, p: FiltersPatch): (r: TaskFilters)
    ensures r.status == ApplyPatch(prev.status, p.status)
    ensures r.priority == ApplyPatch(prev.priority, p.priority)
    ensures r.search == ApplyPatch(prev.search, p.search)
  {
    TaskFilters(ApplyPatch(prev.status, p.status), ApplyPatch(prev.priority, p.priority),
                ApplyPatch(prev.search, p.search))
  }

  /** Merging an empty patch changes nothing; merging twice is merging once. */
  lemma MergeFiltersLaws(prev: TaskFilters, p: FiltersPatch)
    ensures MergeFilters(prev, FiltersPatch(Unchanged, Unchanged, Unchanged)) == prev
    ensures MergeFilters(MergeFilters(prev, p), p) == MergeFilters(prev, p)
  {
  }

  function MergeSort(prev: TaskSort, p: SortPatch): (r: TaskSort)
    ensures r.field == p.field.GetOr(prev.field)
    ensures r.direction == p.direction.GetOr(prev.direction)
  {
    TaskSort(p.field.GetOr(prev.field), p.direction.GetOr(prev.direction))
  }

  /** The body `createTask` posts: the input with status and priority filled
      in as pending and medium when absent. */
  function CreatePayload(input: CreateTaskInput): (r: CreateTaskInput)
    ensures r.title == input.title && r.description == input.description
    ensures r.status == Some(input.status.GetOr(Pending))
    ensures r.priority == Some(input.priority.GetOr(Medium))
  {
    input.(status := Some(input.status.GetOr(Pending)), priority := Some(input.priority.GetOr(Medium)))
  }

  /** The created task goes at the end; everything before it stays. */
  function AppendCreated(prev: seq<Task>, data: TaskEnvelope): (r: seq<Task>)
    ensures |r| == |prev| + 1 && r[..|prev|] == prev && r[|prev|] == data.task
  {
    prev + [data.task]
  }

  /** A list entry as the hook stores `response.data`: a task, or a whole
      `{ task }` envelope. */
  datatype Entry = PlainTask(task: Task) | Wrapped(envelope: TaskEnvelope)

  /** The append as the source writes it: `[...prev, response.data]` with
      `response.data` the envelope. */
  function AppendCreatedAsWritten(prev: seq<Entry>, data: TaskEnvelope): (r: seq<Entry>)
    ensures |r| == |prev| + 1
  {
    prev + [Wrapped(data)]
  }

  /** `{ data: response.data, error: null, isLoading: false }` as the source
      writes it for a create or an update: the data is the envelope. */
  function ResultAsWritten(data: TaskEnvelope): (r: ApiResponse<Entry>)
    ensures r.data.Some? && !r.data.value.PlainTask? && r.error.None? && !r.isLoading
  {
    ApiResponse(Some(Wrapped(data)), None, false)
  }

  /** As written, the appended entry is the envelope, not a task: it has no
      `title`, `status` or `id` of its own; and the create answers its caller
      with that same envelope. */
  lemma AppendCreatedAsWrittenStoresEnvelope(prev: seq<Entry>, data: TaskEnvelope)
    ensures !AppendCreatedAsWritten(prev, data)[|prev|].PlainTask?
    ensures AppendCreatedAsWritten(prev, data)[|prev|] != PlainTask(data.task)
    ensures ResultAsWritten(data).data == Some(AppendCreatedAsWritten(prev, data)[|prev|])
  {
  }

  /** `entry.id`: a task's id; an envelope has none (`undefined`, which is
      never `===` to an id). */
  function EntryId(e: Entry): (r: Option<string>)
    ensures e.PlainTask? <==> r.Some?
    ensures e.PlainTask? ==> r == Some(e.task.id)
  {
    match e
    case PlainTask(t) => Some(t.id)
    case Wrapped(_) => None
  }

  /** The update's replacement as the source writes it:
      `prev.map(task => task.id === taskId ? response.data : task)` with
      `response.data` the envelope. */
  function ReplaceByIdAsWritten(prev: seq<Entry>, taskId: string, data: TaskEnvelope): (r: seq<Entry>)
    ensures |r| == |prev|
    ensures forall i | 0 <= i < |prev| ::
              r[i] == if EntryId(prev[i]) == Some(taskId) then Wrapped(data) else prev[i]
  {
    seq(|prev|, i requires 0 <= i < |prev| => if EntryId(prev[i]) == Some(taskId) then Wrapped(data) else prev[i])
  }

  /** As written, an update turns the updated task into an envelope: no entry
      has the task's id afterwards, so a second update of the same task (a
      second toggle, say) leaves the list as the first one left it. */
  lemma ReplaceByIdAsWrittenLosesTask(prev: seq<Entry>, taskId: string, d1: TaskEnvelope, d2: TaskEnvelope)
    ensures forall i | 0 <= i < |prev| && EntryId(prev[i]) == Some(taskId) ::
              !ReplaceByIdAsWritten(prev, taskId, d1)[i].PlainTask?
    ensures forall i | 0 <= i < |prev| :: EntryId(ReplaceByIdAsWritten(prev, taskId, d1)[i]) != Some(taskId)
    ensures ReplaceByIdAsWritten(ReplaceByIdAsWritten(prev, taskId, d1), taskId, d2)
         == ReplaceByIdAsWritten(prev, taskId, d1)
  {
    var once := ReplaceByIdAsWritten(prev, taskId, d1);
    assert forall i | 0 <= i < |once| :: EntryId(once[i]) != Some(taskId);
  }

  /** `prev.map(t => t.id === taskId ? updated : t)`. */
  function ReplaceById(prev: seq<Task>, taskId: string, updated: Task): (r: seq<Task>)
    ensures |r| == |prev|
    ensures forall i | 0 <= i < |prev| :: r[i] == if prev[i].id == taskId then updated else prev[i]
  {
    seq(|prev|, i requires 0 <= i < |prev| => if prev[i].id == taskId then updated else prev[i])
  }

  /** Replacing by the id the replacement carries keeps every id in place, and
      is idempotent. */
  lemma ReplaceByIdKeepsIds(prev: seq<Task>, updated: Task)
    ensures forall i | 0 <= i < |prev| :: ReplaceById(prev, updated.id, updated)[i].id == prev[i].id
    ensures ReplaceById(ReplaceById(prev, updated.id, updated), updated.id, updated)
         == ReplaceById(prev, updated.id, updated)
  {
  }

  function IdIsNot(taskId: string): Task -> bool {
    (t: Task) => t.id != taskId
  }

  /** `prev.filter(t => t.id !== taskId)`: every other task stays, in order. */
  function RemoveById(prev: seq<Task>, taskId: string): (r: seq<Task>)
    ensures forall i | 0 <= i < |r| :: r[i].id != taskId
    ensures forall t :: t in r <==> t in prev && t.id != taskId
    ensures |r| <= |prev|
  {
    FilterExactly(IdIsNot(taskId), prev);
    Filter(IdIsNot(taskId), prev)
  }

  /** Deleting an id that is not in the list changes nothing; deleting twice
      is deleting once. */
  lemma RemoveByIdLaws(prev: seq<Task>, taskId: string)
    ensures (forall i | 0 <= i < |prev| :: prev[i].id != taskId) ==> RemoveById(prev, taskId) == prev
    ensures RemoveById(RemoveById(prev, taskId), taskId) == RemoveById(prev, taskId)
  {
    if forall i | 0 <= i < |prev| :: prev[i].id != taskId {
      FilterAll(IdIsNot(taskId), prev);
    }
    var once := RemoveById(prev, taskId);
    FilterAll(IdIsNot(taskId), once);
  }

  /** `tasks.find(t => t.id === taskId)`: the first task with that id. */
  function FindById(tasks: seq<Task>, taskId: string): (r: Option<Task>)
    ensures r.None? <==> forall i | 0 <= i < |tasks| :: tasks[i].id != taskId
    ensures r.Some? ==> r.value in tasks && r.value.id == taskId
    ensures r.Some? ==> exists i | 0 <= i < |tasks| :: tasks[i] == r.value && forall j | 0 <= j < i :: tasks[j].id != taskId
  {
    if tasks == [] then None
    else if tasks[0].id == taskId then Some(tasks[0])
    else FindById(tasks[1..], taskId)
  }

  /** The quick toggle: completed becomes pending, anything else completed. */
  function ToggledStatus(st: Status): (r: Status)
    ensures r == Pending <==> st == Completed
    ensures r != InProgress
  {
    if st == Completed then Pending else Completed
  }

  /** Toggling twice restores pending and completed tasks; an in-progress
      task comes back pending. */
  lemma ToggleTwice(st: Status)
    ensures st != InProgress ==> ToggledStatus(ToggledStatus(st)) == st
    ensures st == InProgress ==> ToggledStatus(ToggledStatus(st)) == Pending
  {
  }

  /** The JSON body a `PUT /api/tasks/[id]` carries: the fields the input
      gives, by their names, and `updated_at`. */
  function UpdateBody(input: UpdateTaskInput, stamp: string): (b: Validation.JsonBody)
    ensures b.Object? && "updated_at" in b.fields
    ensures Validation.Field(b, "title") == if input.title.Some? then JsValue.Str(input.title.value) else JsValue.Undefined
    ensures Validation.Field(b, "description") ==
              if input.description.Some? then JsValue.Str(input.description.value) else JsValue.Undefined
    ensures Validation.Field(b, "status") ==
              if input.status.Some? then JsValue.Str(StatusName(input.status.value)) else JsValue.Undefined
    ensures Validation.Field(b, "priority") ==
              if input.priority.Some? then JsValue.Str(PriorityName(input.priority.value)) else JsValue.Undefined
  {
    var m0 := map["updated_at" := JsValue.Str(stamp)];
    var m1 := if input.title.Some? then m0["title" := JsValue.Str(input.title.value)] else m0;
    var m2 := if input.description.Some? then m1["description" := JsValue.Str(input.description.value)] else m1;
    var m3 := if input.status.Some? then m2["status" := JsValue.Str(StatusName(input.status.value))] else m2;
    var m4 := if input.priority.Some? then m3["priority" := JsValue.Str(PriorityName(input.priority.value))] else m3;
    Validation.Object(m4)
  }

  /** As written, the toggle sends `{ status }` alone, and the `PUT` route's
      `validateTaskData` demands a title first: every toggle is answered 400. */
  lemma ToggleRejectedAsWritten(t: Task, stamp: string)
    ensures Validation.ValidateTaskData(UpdateBody(UpdateTaskInput(None, None, Some(ToggledStatus(t.status)), None), stamp))
         == Fail(ErrorHandler.Raise(Validation.TITLE_ERROR, 400))
  {
  }

  /** The toggle as intended: the task's own title, description and priority
      with the toggled status, which is what the `PUT` route rewrites. */
  function ToggleInput(t: Task): (u: UpdateTaskInput)
    ensures u.title == Some(t.title) && u.description == t.description && u.priority == Some(t.priority)
    ensures u.status == Some(ToggledStatus(t.status))
  {
    UpdateTaskInput(Some(t.title), t.description, Some(ToggledStatus(t.status)), Some(t.priority))
  }

  /** The intended toggle of a task with a non-blank title passes the route's
      validation. */
  lemma ToggleInputAccepted(t: Task, stamp: string)
    requires JsString.Trim(t.title) != []
    ensures Validation.ValidateTaskData(UpdateBody(ToggleInput(t), stamp)).Pass?
  {
    StatusNamesRoundTrip(ToggledStatus(t.status));
    PriorityNamesRoundTrip(t.priority);
  }

  /** The query string `fetchTasks` sends: each truthy filter, then the sort. */
  function FetchQuery(f: TaskFilters, s: TaskSort): TasksRoute.QueryParams {
    TasksRoute.QueryParams(
      if f.status.Some? then Some(StatusName(f.status.value)) else None,
      if f.priority.Some? then Some(PriorityName(f.priority.value)) else None,
      if f.search.Some? && f.search.value != "" then f.search else None,
      Some(SortFieldName(s.field)),
      Some(DirectionName(s.direction)))
  }

  lemma StatusNameNonEmpty(st: Status)
    ensures StatusName(st) != ""
  {
  }

  /** The server selects from the caller's rows exactly the tasks the hook's
      own filter keeps, and orders them by the field the hook sorts by. */
  lemma FetchQueryAgreesWithClient(f: TaskFilters, s: TaskSort, userId: string, t: Task)
    requires t.userId == userId
    ensures TasksRoute.Selected(userId, FetchQuery(f, s), t) <==> Keep(f, t)
    ensures TasksRoute.SortColumn(FetchQuery(f, s)) == SortFieldName(s.field)
    ensures TasksRoute.Ascending(FetchQuery(f, s)) <==> s.direction == Asc
    ensures TasksRoute.ColumnKey(SortFieldName(s.field), t) == Some(FieldKey(s.field, t))
  {
    var q := FetchQuery(f, s);
    if f.status.Some? {
      assert TasksRoute.IsSet(q.status);
      assert StatusName(t.status) == StatusName(f.status.value) <==> t.status == f.status.value;
    }
    if f.priority.Some? {
      assert TasksRoute.IsSet(q.priority);
      assert PriorityName(t.priority) == PriorityName(f.priority.value) <==> t.priority == f.priority.value;
    }
    TasksRoute.FieldColumnsAgree(s.field, t);
  }

  const DEFAULT_FETCH_ERROR := "An error occurred"
  const DEFAULT_CREATE_ERROR := "Failed to create task"
  const DEFAULT_UPDATE_ERROR := "Failed to update task"
  const DEFAULT_DELETE_ERROR := "Failed to delete task"

  class TasksHook {
    var tasks: seq<Task>
    var isLoading: bool
    var error: Option<string>
    var filters: TaskFilters
    var sort: TaskSort

    /** `useTasks(options)`: an empty list, the given or empty filters and the
        given or default sort. */
    constructor (initialFilters: Option<TaskFilters>, initialSort: Option<TaskSort>)
      ensures tasks == [] && !isLoading && error.None?
      ensures filters == initialFilters.GetOr(NoFilters)
      ensures sort == initialSort.GetOr(DefaultSort)
    {
      tasks := [];
      isLoading := false;
      error := None;
      filters := initialFilters.GetOr(NoFilters);
      sort := initialSort.GetOr(DefaultSort);
    }

    /** `fetchTasks`: sends the query of the current filters and sort; the
        delivered list replaces the tasks, a failure keeps them and records
        the error. */
    method FetchTasks(reply: Reply<seq<Task>>) returns (query: TasksRoute.QueryParams)
      modifies this
      ensures query == FetchQuery(filters, sort)
      ensures filters == old(filters) && sort == old(sort) && !isLoading
      ensures reply.Delivered? ==> tasks == reply.data && error.None?
      ensures reply.Rejected? ==> tasks == old(tasks) && error == Some(reply.message.GetOr(DEFAULT_FETCH_ERROR))
    {
      isLoading := true;
      error := None;
      query := FetchQuery(filters, sort);
      match reply {
        case Delivered(list) =>
          tasks := list;
        case Rejected(message) =>
          error := Some(message.GetOr(DEFAULT_FETCH_ERROR));
      }
      isLoading := false;
    }

    /** `createTask`: posts the default-filled input; on success the created
        task is appended, on failure the list is unchanged and the error set. */
    method CreateTask(input: CreateTaskInput, reply: Reply<TaskEnvelope>)
      returns (sent: CreateTaskInput, result: ApiResponse<Task>)
      modifies this
      ensures sent == CreatePayload(input)
      ensures filters == old(filters) && sort == old(sort) && !isLoading
      ensures reply.Delivered? ==>
                tasks == AppendCreated(old(tasks), reply.data) && error.None?
                && result == ApiResponse(Some(reply.data.task), None, false)
      ensures reply.Rejected? ==>
                tasks == old(tasks) && error == Some(reply.message.GetOr(DEFAULT_CREATE_ERROR))
                && result == ApiResponse(None, error, false)
    {
      isLoading := true;
      error := None;
      sent := CreatePayload(input);
      match reply {
        case Delivered(data) =>
          tasks := AppendCreated(tasks, data);
          result := ApiResponse(Some(data.task), None, false);
        case Rejected(message) =>
          error := Some(message.GetOr(DEFAULT_CREATE_ERROR));
          result := ApiResponse(None, error, false);
      }
      isLoading := false;
    }

    /** `updateTask`: the input is sent with `updated_at` set to the time
        stamp; on success exactly the entries with `taskId` are replaced by
        the returned task; on failure nothing changes but the error. */
    method UpdateTask(taskId: string, input: UpdateTaskInput, stamp: string, reply: Reply<TaskEnvelope>)
      returns (sent: Validation.JsonBody, result: ApiResponse<Task>)
      modifies this
      ensures sent == UpdateBody(input, stamp)
      ensures filters == old(filters) && sort == old(sort) && !isLoading
      ensures reply.Delivered? ==>
                tasks == ReplaceById(old(tasks), taskId, reply.data.task) && error.None?
                && result == ApiResponse(Some(reply.data.task), None, false)
      ensures reply.Rejected? ==>
                tasks == old(tasks) && error == Some(reply.message.GetOr(DEFAULT_UPDATE_ERROR))
                && result == ApiResponse(None, error, false)
    {
      isLoading := true;
      error := None;
      sent := UpdateBody(input, stamp);
      match reply {
        case Delivered(data) =>
          tasks := ReplaceById(tasks, taskId, data.task);
          result := ApiResponse(Some(data.task), None, false);
        case Rejected(message) =>
          error := Some(message.GetOr(DEFAULT_UPDATE_ERROR));
          result := ApiResponse(None, error, false);
      }
      isLoading := false;
    }

    /** `deleteTask`: on success exactly the entries with `taskId` go, the rest
        keep their order; on failure nothing changes but the error. The reply
        carries the server's message body, which the hook ignores. */
    method DeleteTask(taskId: string, reply: Reply<string>) returns (result: ApiResponse<bool>)
      modifies this
      ensures filters == old(filters) && sort == old(sort) && !isLoading
      ensures reply.Delivered? ==>
                tasks == RemoveById(old(tasks), taskId) && error.None?
                && result == ApiResponse(Some(true), None, false)
      ensures reply.Rejected? ==>
                tasks == old(tasks) && error == Some(reply.message.GetOr(DEFAULT_DELETE_ERROR))
                && result == ApiResponse(None, error, false)
    {
      isLoading := true;
      error := None;
      match reply {
        case Delivered(_) =>
          tasks := RemoveById(tasks, taskId);
          result := ApiResponse(Some(true), None, false);
        case Rejected(message) =>
          error := Some(message.GetOr(DEFAULT_DELETE_ERROR));
          result := ApiResponse(None, error, false);
      }
      isLoading := false;
    }

    /** `toggleTaskStatus`: an unknown id is a no-op that sends nothing;
        otherwise it updates the task with the toggled status, sending the
        task's other fields along. */
    method ToggleTaskStatus(taskId: string, stamp: string, reply: Reply<TaskEnvelope>)
      returns (sent: Option<UpdateTaskInput>, body: Option<Validation.JsonBody>)
      modifies this
      ensures FindById(old(tasks), taskId).None? ==>
                sent.None? && body.None? && tasks == old(tasks) && error == old(error) && isLoading == old(isLoading)
      ensures FindById(old(tasks), taskId).Some? ==>
                sent == Some(ToggleInput(FindById(old(tasks), taskId).value))
                && sent.value.status == Some(ToggledStatus(FindById(old(tasks), taskId).value.status))
                && body == Some(UpdateBody(sent.value, stamp)) && !isLoading
      ensures FindById(old(tasks), taskId).Some? && reply.Delivered? ==>
                tasks == ReplaceById(old(tasks), taskId, reply.data.task) && error.None?
      ensures FindById(old(tasks), taskId).Some? && reply.Rejected? ==>
                tasks == old(tasks) && error == Some(reply.message.GetOr(DEFAULT_UPDATE_ERROR))
      ensures filters == old(filters) && sort == old(sort)
    {
      var found := FindById(tasks, taskId);
      if found.None? {
        return None, None;
      }
      var input := ToggleInput(found.value);
      var put, _ := UpdateTask(taskId, input, stamp, reply);
      sent, body := Some(input), Some(put);
    }

    /** `updateFilters`: the given fields replace the current ones. */
    method UpdateFilters(p: FiltersPatch)
      modifies this
      ensures filters == MergeFilters(old(filters), p)
      ensures tasks == old(tasks) && sort == old(sort) && error == old(error) && isLoading == old(isLoading)
    {
      filters := MergeFilters(filters, p);
    }

    method UpdateSort(p: SortPatch)
      modifies this
      ensures sort == MergeSort(old(sort), p)
      ensures tasks == old(tasks) && filters == old(filters) && error == old(error) && isLoading == old(isLoading)
    {
      sort := MergeSort(sort, p);
    }

    method ClearFilters()
      modifies this
      ensures filters == NoFilters
      ensures tasks == old(tasks) && sort == old(sort) && error == old(error) && isLoading == old(isLoading)
    {
      filters := NoFilters;
    }

    /** The filtering half of `getProcessedTasks`: a copy of the tasks
        narrowed by each set filter in turn, which is the one-pass filter by
        all of them: the kept tasks in their order, each as often as in
        `tasks`. */
    method Narrowed() returns (narrowed: seq<Task>)
      ensures narrowed == Filter(KeepTest(filters), tasks)
      ensures forall t :: t in narrowed <==> t in tasks && Keep(filters, t)
      ensures multiset(narrowed) <= multiset(tasks)
    {
      StatusStage(filters.status, tasks);
      PriorityStage(filters.status, filters.priority, tasks);
      SearchStage(filters, tasks);
      narrowed := tasks;
      if filters.status.Some? {
        narrowed := Filter(HasStatus(filters.status.value), narrowed);
      }
      if filters.priority.Some? {
        narrowed := Filter(HasPriority(filters.priority.value), narrowed);
      }
      if filters.search.Some? && filters.search.value != "" {
        narrowed := Filter(MatchesTerm(filters.search.value), narrowed);
      }
      FilterExactly(KeepTest(filters), tasks);
    }

    /** `getProcessedTasks`: the narrowed copy ordered by the sort field. The
        result holds exactly the tasks the filters keep, no more often than in
        `tasks`, and is sorted; `tasks` itself is not touched. */
    method GetProcessedTasks() returns (processed: seq<Task>)
      ensures forall t :: t in processed <==> t in tasks && Keep(filters, t)
      ensures multiset(processed) <= multiset(tasks)
      ensures SortedBy(FieldKeyOf(sort.field), sort.direction == Asc, processed)
      ensures processed == SortBy(FieldKeyOf(sort.field), sort.direction == Asc, Filter(KeepTest(filters), tasks))
    {
      var narrowed := Narrowed();
      processed := SortBy(FieldKeyOf(sort.field), sort.direction == Asc, narrowed);
      SortBySorted(FieldKeyOf(sort.field), sort.direction == Asc, narrowed);
      Sorting.SameElements(processed, narrowed);
    }
  }
}
