/**
 * `src/app/api/tasks/route.ts`: `GET /api/tasks` lists the caller's tasks,
 * filtered and ordered by the query string, and `POST /api/tasks` validates a
 * body and inserts one task. The `tasks` table is an in-memory sequence of
 * rows; the database's failures, generated ids and clock are parameters.
 */
module TasksRoute {
  import opened Wrappers
  import opened JsString
  import opened Constants
  import opened Types
  import opened JsValue
  import opened Sorting
  import opened TaskQuery
  import opened ErrorHandler
  import opened Validation
  import opened AuthMiddleware

  /** The query string: each parameter is absent (`null`) or a string. */
  datatype QueryParams = QueryParams(
    status: Option<string>,
    priority: Option<string>,
    search: Option<string>,
    sortField: Option<string>,
    sortDirection: Option<string>)

  const FETCH_FAILED := "Failed to fetch tasks"
  const CREATE_FAILED := "Failed to create task"

  /** A parameter that is present and not the empty string. */
  predicate IsSet(p: Option<string>) {
    p.Some? && p.value != ""
  }

  /** `searchParams.get('sortField') || 'created_at'`. */
  function SortColumn(params: QueryParams): string {
    if IsSet(params.sortField) then params.sortField.value else "created_at"
  }

  /** `sortDirection === "asc"`, the direction defaulting to "desc". */
  function Ascending(params: QueryParams): bool {
    (if IsSet(params.sortDirection) then params.sortDirection.value else "desc") == "asc"
  }

  /** The order key of a column of the `tasks` table; `None` for a name that
      is not a column, which the database rejects. A `NULL` description is
      `Missing`. */
  function ColumnKey(column: string, t: Task): Option<Key> {
    if column == "id" then Some(Text(t.id))
    else if column == "title" then Some(Text(t.title))
    else if column == "description" then Some(if t.description.Some? then Text(t.description.value) else Missing)
    else if column == "status" then Some(Text(StatusName(t.status)))
    else if column == "priority" then Some(Text(PriorityName(t.priority)))
    else if column == "user_id" then Some(Text(t.userId))
    else if column == "created_at" then Some(Time(t.createdAt))
    else if column == "updated_at" then Some(Time(t.updatedAt))
    else None
  }

  predicate IsColumn(column: string) {
    column in {"id", "title", "description", "status", "priority", "user_id", "created_at", "updated_at"}
  }

  lemma ColumnKeyDefinedOnColumns(column: string, t: Task)
    ensures ColumnKey(column, t).Some? <==> IsColumn(column)
  {
  }

  function ColumnKeyOf(column: string): Task -> Key
    requires IsColumn(column)
  {
    (t: Task) => ColumnKey(column, t).value
  }

  /** Every field the hook sorts by is a column, ordered by the same key. */
  lemma FieldColumnsAgree(f: SortField, t: Task)
    ensures IsColumn(SortFieldName(f))
    ensures ColumnKey(SortFieldName(f), t) == Some(FieldKey(f, t))
  {
  }

  function OwnedBy(userId: string): Task -> bool {
    (t: Task) => t.userId == userId
  }

  function StatusIs(status: string): Task -> bool {
    (t: Task) => StatusName(t.status) == status
  }

  function PriorityIs(priority: string): Task -> bool {
    (t: Task) => PriorityName(t.priority) == priority
  }

  /** The rows `GET` selects for `userId`: the caller's own rows that match
      every set parameter. */
  predicate Selected(userId: string, params: QueryParams, t: Task) {
    t.userId == userId
    && (IsSet(params.status) ==> StatusName(t.status) == params.status.value)
    && (IsSet(params.priority) ==> PriorityName(t.priority) == params.priority.value)
    && (IsSet(params.search) ==> MatchesSearch(t, params.search.value))
  }

  function SelectedTest(userId: string, params: QueryParams): Task -> bool {
    (t: Task) => Selected(userId, params, t)
  }

  /** The stages of the query builder: the owner test alone, then the status,
      priority and search tests in turn, each the one-pass selection by the
      parameters so far. */
  lemma OwnedStage(userId: string, params: QueryParams, rows: seq<Task>)
    ensures Filter(SelectedTest(userId, params.(status := None, priority := None, search := None)), rows)
         == Filter(OwnedBy(userId), rows)
  {
    FilterExt(SelectedTest(userId, params.(status := None, priority := None, search := None)), OwnedBy(userId), rows);
  }

  lemma StatusParamStage(userId: string, params: QueryParams, rows: seq<Task>)
    ensures Filter(SelectedTest(userId, params.(priority := None, search := None)), rows)
         == (var before := Filter(SelectedTest(userId, params.(status := None, priority := None, search := None)), rows);
             if IsSet(params.status) then Filter(StatusIs(params.status.value), before) else before)
  {
    var before := SelectedTest(userId, params.(status := None, priority := None, search := None));
    var after := SelectedTest(userId, params.(priority := None, search := None));
    if IsSet(params.status) {
      FilterStep(StatusIs(params.status.value), before, after, rows);
    } else {
      FilterExt(before, after, rows);
    }
  }

  lemma PriorityParamStage(userId: string, params: QueryParams, rows: seq<Task>)
    ensures Filter(SelectedTest(userId, params.(search := None)), rows)
         == (var before := Filter(SelectedTest(userId, params.(priority := None, search := None)), rows);
             if IsSet(params.priority) then Filter(PriorityIs(params.priority.value), before) else before)
  {
    var before := SelectedTest(userId, params.(priority := None, search := None));
    var after := SelectedTest(userId, params.(search := None));
    if IsSet(params.priority) {
      FilterStep(PriorityIs(params.priority.value), before, after, rows);
    } else {
      FilterExt(before, after, rows);
    }
  }

  lemma SearchParamStage(userId: string, params: QueryParams, rows: seq<Task>)
    ensures Filter(SelectedTest(userId, params), rows)
         == (var before := Filter(SelectedTest(userId, params.(search := None)), rows);
             if IsSet(params.search) then Filter(MatchesTerm(params.search.value), before) else before)
  {
    var before := SelectedTest(userId, params.(search := None));
    if IsSet(params.search) {
      FilterStep(MatchesTerm(params.search.value), before, SelectedTest(userId, params), rows);
    } else {
      FilterExt(before, SelectedTest(userId, params), rows);
    }
  }

  /** The `title`, `description`, `status` and `priority` fields of a task row
      built by `POST`. */
  datatype Shaped = Shaped(title: string, description: Option<string>, status: Status, priority: Priority)

  /** `body.description?.trim() || null`: nothing for `undefined` and `null`,
      the trimmed text unless it is empty; a falsy non-string (`false`, `0`)
      has no `trim` method and throws. */
  function ShapeDescription(v: Value): (r: Result<Option<string>, Thrown>)
    requires DescriptionOk(v)
    ensures r.Failure? <==> !v.Undefined? && !v.Null? && !v.Str?
    ensures r.Success? && v.Str? ==>
              (r.value.None? <==> AllWhitespace(v.s)) && (r.value.Some? ==> r.value.value == Trim(v.s))
    ensures r.Success? && !v.Str? ==> r.value.None?
  {
    match v
    case Undefined => Success(None)
    case Null => Success(None)
    case Str(s) => var t := Trim(s); Success(if t == [] then None else Some(t))
    case _ => Failure(Other)
  }

  /** The default-filled status: `body.status || 'pending'`. */
  function ShapeStatus(v: Value): (st: Status)
    requires StatusOk(v)
    ensures !Truthy(v) ==> st == Pending
    ensures Truthy(v) ==> StatusName(st) == v.s
  {
    if Truthy(v) then ParseStatus(v.s).value else Pending
  }

  function ShapePriority(v: Value): (p: Priority)
    requires PriorityOk(v)
    ensures !Truthy(v) ==> p == Medium
    ensures Truthy(v) ==> PriorityName(p) == v.s
  {
    if Truthy(v) then ParsePriority(v.s).value else Medium
  }

  /** The row data `POST` builds from a validated body. */
  function ShapeTask(data: JsonBody): (r: Result<Shaped, Thrown>)
    requires ValidateTaskData(data).Pass?
    ensures !data.NullBody?
    ensures r.Success? ==> r.value.title == Trim(Field(data, "title").s) && r.value.title != []
    ensures r.Success? <==> ShapeDescription(Field(data, "description")).Success?
  {
    var d := ShapeDescription(Field(data, "description"));
    if d.Failure? then Failure(d.error)
    else
      Success(Shaped(Trim(Field(data, "title").s), d.value,
                     ShapeStatus(Field(data, "status")), ShapePriority(Field(data, "priority"))))
  }

  /** The body cannot choose the owner: a `user_id` field in it changes
      nothing of what is validated or shaped. */
  lemma ShapeIgnoresBodyOwner(fields: map<string, Value>, owner: Value)
    ensures ValidateTaskData(Object(fields["user_id" := owner])) == ValidateTaskData(Object(fields - {"user_id"}))
    ensures ValidateTaskData(Object(fields - {"user_id"})).Pass? ==>
              ShapeTask(Object(fields["user_id" := owner])) == ShapeTask(Object(fields - {"user_id"}))
  {
    var a := Object(fields["user_id" := owner]);
    var b := Object(fields - {"user_id"});
    assert Field(a, "title") == Field(b, "title");
    assert Field(a, "description") == Field(b, "description");
    assert Field(a, "status") == Field(b, "status");
    assert Field(a, "priority") == Field(b, "priority");
  }

  class TasksTable {
    var rows: seq<Task>

    constructor (initial: seq<Task>)
      ensures rows == initial
    {
      rows := initial;
    }

    /** The query builder of `GET` up to the ordering: the caller's rows,
        then each set filter in turn, which is the one-pass selection: the
        selected rows in table order, each as often as in the table. */
    method Narrow(userId: string, params: QueryParams) returns (query: seq<Task>)
      ensures query == Filter(SelectedTest(userId, params), rows)
      ensures forall t :: t in query <==> t in rows && Selected(userId, params, t)
      ensures multiset(query) <= multiset(rows)
    {
      OwnedStage(userId, params, rows);
      StatusParamStage(userId, params, rows);
      PriorityParamStage(userId, params, rows);
      SearchParamStage(userId, params, rows);
      query := Filter(OwnedBy(userId), rows);
      if IsSet(params.status) {
        query := Filter(StatusIs(params.status.value), query);
      }
      if IsSet(params.priority) {
        query := Filter(PriorityIs(params.priority.value), query);
      }
      if IsSet(params.search) {
        query := Filter(MatchesTerm(params.search.value), query);
      }
      FilterExactly(SelectedTest(userId, params), rows);
    }

    /** `GET`: 401 on an authentication error; 500 when the sort column does
        not exist or the database fails; otherwise 200 with exactly the
        selected rows, ordered by the column in the requested direction. */
    method Get(authorization: Option<string>, getUser: string -> UserLookup,
               params: QueryParams, storeFails: bool) returns (r: Response)
      ensures AuthenticateRequest(authorization, getUser).error.Some? ==>
                r == Response(401, ErrorBody(AuthenticateRequest(authorization, getUser).error.value))
      ensures AuthenticateRequest(authorization, getUser).error.None? && (storeFails || !IsColumn(SortColumn(params))) ==>
                r == Response(500, ErrorBody(FETCH_FAILED))
      ensures AuthenticateRequest(authorization, getUser).error.None? && !storeFails && IsColumn(SortColumn(params)) ==>
                r.status == 200
      ensures r.status == 200 ==>
                var user := AuthenticateRequest(authorization, getUser).user.value;
                && r.body.TaskListBody?
                && IsColumn(SortColumn(params))
                && (forall t :: t in r.body.tasks <==> t in rows && Selected(user.id, params, t))
                && multiset(r.body.tasks) <= multiset(rows)
                && SortedBy(ColumnKeyOf(SortColumn(params)), Ascending(params), r.body.tasks)
                && r.body.tasks == SortBy(ColumnKeyOf(SortColumn(params)), Ascending(params),
                                          Filter(SelectedTest(user.id, params), rows))
      ensures r.status in {200, 401, 500}
    {
      var auth := AuthenticateRequest(authorization, getUser);
      if auth.error.Some? {
        return Response(401, ErrorBody(auth.error.value));
      }
      var user := auth.user.value;
      var query := Narrow(user.id, params);
      var column := SortColumn(params);
      if storeFails || !IsColumn(column) {
        return HandleApiError(Raise(FETCH_FAILED, 500));
      }
      var sorted := SortBy(ColumnKeyOf(column), Ascending(params), query);
      SortBySorted(ColumnKeyOf(column), Ascending(params), query);
      SameElements(sorted, query);
      return Response(200, TaskListBody(sorted));
    }

    /** `POST`: 401 on an authentication error; a malformed or `null` body
        and a body that fails shaping give 500, an invalid one 400, a database
        failure 500 "Failed to create task" — all with the table unchanged.
        Otherwise the shaped row owned by the caller is appended and returned
        with 201. */
    method Post(authorization: Option<string>, getUser: string -> UserLookup,
                body: Option<JsonBody>, newId: string, now: int, storeFails: bool) returns (r: Response)
      modifies this
      ensures AuthenticateRequest(authorization, getUser).error.Some? ==>
                r == Response(401, ErrorBody(AuthenticateRequest(authorization, getUser).error.value))
      ensures AuthenticateRequest(authorization, getUser).error.None? && body.Some?
              && ValidateTaskData(body.value).Fail? ==>
                r == HandleApiError(ValidateTaskData(body.value).error)
      ensures AuthenticateRequest(authorization, getUser).error.None? && body.None? ==>
                r == Response(500, ErrorBody(INTERNAL_SERVER_ERROR))
      ensures AuthenticateRequest(authorization, getUser).error.None? && body.Some?
              && ValidateTaskData(body.value).Pass? && ShapeTask(body.value).Failure? ==>
                r == HandleApiError(ShapeTask(body.value).error)
      ensures AuthenticateRequest(authorization, getUser).error.None? && body.Some?
              && ValidateTaskData(body.value).Pass? && ShapeTask(body.value).Success? ==>
                if storeFails then r == Response(500, ErrorBody(CREATE_FAILED)) else r.status == 201
      ensures r.status != 201 ==> rows == old(rows)
      ensures r.status == 201 ==>
                var user := AuthenticateRequest(authorization, getUser).user.value;
                && body.Some? && ValidateTaskData(body.value).Pass?
                && ShapeTask(body.value).Success?
                && var s := ShapeTask(body.value).value;
                && r.body == TaskBody(Task(newId, s.title, s.description, s.status, s.priority, user.id, now, now))
                && rows == old(rows) + [r.body.task]
    {
      var auth := AuthenticateRequest(authorization, getUser);
      if auth.error.Some? {
        return Response(401, ErrorBody(auth.error.value));
      }
      var user := auth.user.value;
      if body.None? {
        return HandleApiError(Other);
      }
      var data := body.value;
      var valid := ValidateTaskData(data);
      if valid.Fail? {
        return HandleApiError(valid.error);
      }
      var shaped := ShapeTask(data);
      if shaped.Failure? {
        return HandleApiError(shaped.error);
      }
      var s := shaped.value;
      if storeFails {
        return HandleApiError(Raise(CREATE_FAILED, 500));
      }
      var task := Task(newId, s.title, s.description, s.status, s.priority, user.id, now, now);
      rows := rows + [task];
      return Response(201, TaskBody(task));
    }
  }
}
