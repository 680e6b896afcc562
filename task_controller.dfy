/**
 * `server/controllers/task.ts`: the legacy API's tasks, one Mongo collection
 * (`server/model/task.ts`). Admins add tasks, which are stamped with their id;
 * the list of all tasks is not scoped to anyone; an edit rewrites the name,
 * due date and status of the task with the given `_id`, whoever asks; users
 * list the tasks assigned to them.
 *
 * The collection is a sequence in insertion order. The `_id` a new document
 * receives is a parameter, and so is `fault`, the message of an exception an
 * awaited store call throws. Dates are integer timestamps.
 */
module TaskController {
  import opened Wrappers
  import opened TaskQuery
  import UserController

  /** A stored task. `task_name` and `due_date` are required by the schema. */
  datatype TaskDoc = TaskDoc(id: string, adminId: Option<string>, userId: Option<string>,
                             assignTo: Option<string>, taskName: string, dueDate: int,
                             status: Option<string>)

  /** The schema's fields as they arrive in `req.body` (others are dropped). */
  datatype TaskBody = TaskBody(adminId: Option<string>, userId: Option<string>, assignTo: Option<string>,
                               taskName: Option<string>, dueDate: Option<int>, status: Option<string>)

  /** The fields `edit_task` reads from `req.body`. */
  datatype EditBody = EditBody(taskId: string, taskName: Option<string>, dueDate: Option<int>,
                               status: Option<string>)

  /** What a handler sends: 201 with the created task, 200 with a list or
      with the document an edit found (`null` when none), 500 with a message. */
  datatype Reply =
    | TaskAdded(task: TaskDoc)
    | TasksFetched(tasks: seq<TaskDoc>)
    | TaskEdited(found: Option<TaskDoc>)
    | ServerError(message: Option<string>)

  function StatusOf(r: Reply): int {
    match r
    case TaskAdded(_) => 201
    case TasksFetched(_) => 200
    case TaskEdited(_) => 200
    case ServerError(_) => 500
  }

  /** `{ ...req.body, adminId: req.user }` as stored, or `None` when the
      schema rejects it: a `required` string path fails on a missing or empty
      name, a `required` date on a missing due date. Whatever `adminId` the
      body carries, the document's is the caller's. */
  function CreatedDocument(adminId: string, body: TaskBody, newId: string): (d: Option<TaskDoc>)
    ensures d.Some? <==> body.taskName.Some? && body.taskName.value != "" && body.dueDate.Some?
    ensures d.Some? ==> d.value.id == newId && d.value.adminId == Some(adminId)
    ensures d.Some? ==> d.value.userId == body.userId && d.value.assignTo == body.assignTo
                        && d.value.taskName == body.taskName.value && d.value.dueDate == body.dueDate.value
                        && d.value.status == body.status
  {
    var merged := body.(adminId := Some(adminId));
    if merged.taskName.None? || merged.taskName.value == "" || merged.dueDate.None? then None
    else Some(TaskDoc(newId, merged.adminId, merged.userId, merged.assignTo,
                      merged.taskName.value, merged.dueDate.value, merged.status))
  }

  /** The caller cannot choose the owner: the body's `adminId` is ignored. */
  lemma BodyAdminIdIgnored(adminId: string, body: TaskBody, forged: Option<string>, newId: string)
    ensures CreatedDocument(adminId, body.(adminId := forged), newId) == CreatedDocument(adminId, body, newId)
  {
  }

  /** The update `{task_name, due_date, status}` on one document: the three
      fields the body carries are set (Mongoose drops the absent ones), every
      other field stays. */
  function EditDocument(d: TaskDoc, body: EditBody): (e: TaskDoc)
    ensures e.id == d.id && e.adminId == d.adminId && e.userId == d.userId && e.assignTo == d.assignTo
    ensures e.taskName == body.taskName.GetOr(d.taskName)
    ensures e.dueDate == body.dueDate.GetOr(d.dueDate)
    ensures e.status == if body.status.Some? then body.status else d.status
  {
    d.(taskName := body.taskName.GetOr(d.taskName),
       dueDate := body.dueDate.GetOr(d.dueDate),
       status := if body.status.Some? then body.status else d.status)
  }

  function HasId(id: string): TaskDoc -> bool {
    (d: TaskDoc) => d.id == id
  }

  function OfUser(userId: string): TaskDoc -> bool {
    (d: TaskDoc) => d.userId == Some(userId)
  }

  /** `findOneAndUpdate({_id: taskId}, …)` on the collection: the first
      document with that id is edited. */
  function EditFirst(s: seq<TaskDoc>, body: EditBody): (r: seq<TaskDoc>)
    ensures |r| == |s|
  {
    if s == [] then []
    else if s[0].id == body.taskId then [EditDocument(s[0], body)] + s[1..]
    else [s[0]] + EditFirst(s[1..], body)
  }

  /** Position `i` holds the first document with the id. */
  predicate IsFirstWithId(s: seq<TaskDoc>, id: string, i: int)
    requires 0 <= i < |s|
  {
    s[i].id == id && forall j | 0 <= j < i :: s[j].id != id
  }

  /** Being first with the id in the tail is being first in the whole,
      one position on, when the head has another id. */
  lemma FirstWithIdInTail(s: seq<TaskDoc>, id: string, i: int)
    requires 0 < i < |s| && s[0].id != id
    ensures IsFirstWithId(s, id, i) == IsFirstWithId(s[1..], id, i - 1)
  {
    assert s[1..][i - 1] == s[i];
    if IsFirstWithId(s[1..], id, i - 1) {
      forall j | 0 <= j < i ensures s[j].id != id {
        if j > 0 { assert s[j] == s[1..][j - 1]; }
      }
    }
    if IsFirstWithId(s, id, i) {
      forall j | 0 <= j < i - 1 ensures s[1..][j].id != id {
        assert s[1..][j] == s[j + 1];
      }
    }
  }

  /** The edit changes the first document with the id, and only it; every
      position keeps its id. */
  lemma {:induction false} EditFirstSpec(s: seq<TaskDoc>, body: EditBody)
    ensures forall i | 0 <= i < |s| :: EditFirst(s, body)[i].id == s[i].id
    ensures forall i | 0 <= i < |s| ::
              EditFirst(s, body)[i] == if IsFirstWithId(s, body.taskId, i) then EditDocument(s[i], body) else s[i]
    decreases |s|
  {
    if s != [] {
      var r := EditFirst(s, body);
      if s[0].id == body.taskId {
        assert r == [EditDocument(s[0], body)] + s[1..];
        forall i | 0 < i < |s| ensures r[i] == s[i] && !IsFirstWithId(s, body.taskId, i) {
          assert r[i] == s[1..][i - 1];
        }
      } else {
        EditFirstSpec(s[1..], body);
        var rest := EditFirst(s[1..], body);
        assert r == [s[0]] + rest;
        forall i | 0 < i < |s|
          ensures r[i].id == s[i].id
          ensures r[i] == if IsFirstWithId(s, body.taskId, i) then EditDocument(s[i], body) else s[i]
        {
          FirstWithIdInTail(s, body.taskId, i);
          assert r[i] == rest[i - 1] && s[1..][i - 1] == s[i];
        }
      }
    }
  }

  /** Editing with an id no document has changes nothing. */
  lemma EditMissingIsNoOp(s: seq<TaskDoc>, body: EditBody)
    requires forall i | 0 <= i < |s| :: s[i].id != body.taskId
    ensures EditFirst(s, body) == s
  {
    EditFirstSpec(s, body);
    var r := EditFirst(s, body);
    assert forall i | 0 <= i < |s| :: r[i] == s[i];
  }

  /** The same edit sent twice leaves what it left once. */
  lemma {:induction false} EditIdempotent(s: seq<TaskDoc>, body: EditBody)
    ensures EditFirst(EditFirst(s, body), body) == EditFirst(s, body)
  {
    if s != [] && s[0].id != body.taskId {
      EditIdempotent(s[1..], body);
      var once := EditFirst(s, body);
      assert once == [s[0]] + EditFirst(s[1..], body);
      assert once[1..] == EditFirst(s[1..], body);
    }
  }

  /** The collection. */
  class TaskCollection {
    var tasks: seq<TaskDoc>

    constructor (initial: seq<TaskDoc>)
      ensures tasks == initial
    {
      tasks := initial;
    }

    /** `add_task`, behind `authenticateAdmin` (`adminId` is `req.user`): the
        created document, owned by the caller, is appended and answered 201;
        a store failure or a document the schema rejects gives 500 and
        nothing is stored. */
    method AddTask(adminId: string, body: TaskBody, newId: string, fault: Option<string>) returns (r: Reply)
      modifies this
      ensures fault.Some? ==> r == ServerError(fault) && tasks == old(tasks)
      ensures fault.None? && CreatedDocument(adminId, body, newId).None? ==>
                r.ServerError? && tasks == old(tasks)
      ensures fault.None? && CreatedDocument(adminId, body, newId).Some? ==>
                var d := CreatedDocument(adminId, body, newId).value;
                tasks == old(tasks) + [d] && r == TaskAdded(d)
    {
      if fault.Some? {
        return ServerError(fault);
      }
      var created := CreatedDocument(adminId, body, newId);
      if created.None? {
        return ServerError(None);
      }
      tasks := tasks + [created.value];
      r := TaskAdded(created.value);
    }

    /** `get_task`: every document, whoever the caller is. */
    method GetTask(fault: Option<string>) returns (r: Reply)
      ensures fault.Some? ==> r == ServerError(fault)
      ensures fault.None? ==> r == TasksFetched(tasks)
    {
      if fault.Some? {
        return ServerError(fault);
      }
      r := TasksFetched(tasks);
    }

    /** `edit_task`, behind either guard: the caller's identity is not an
        input, so any authenticated caller edits any task. The first document
        with the id is edited; the answer is 200 with that document as it was
        BEFORE the edit (`findOneAndUpdate` returns the original), or `null`
        when no document has the id — still 200, with nothing changed. */
    method EditTask(body: EditBody, fault: Option<string>) returns (r: Reply)
      modifies this
      ensures fault.Some? ==> r == ServerError(fault) && tasks == old(tasks)
      ensures fault.None? ==> tasks == EditFirst(old(tasks), body)
                              && r == TaskEdited(UserController.FindFirst(old(tasks), HasId(body.taskId)))
      ensures fault.None? && r.found.None? ==> tasks == old(tasks)
    {
      if fault.Some? {
        return ServerError(fault);
      }
      var found := UserController.FindFirst(tasks, HasId(body.taskId));
      if found.None? {
        EditMissingIsNoOp(tasks, body);
      }
      tasks := EditFirst(tasks, body);
      r := TaskEdited(found);
    }

    /** `get_user_task`, behind `authenticateUser`: exactly the documents
        assigned to the caller, in collection order. */
    method GetUserTask(userId: string, fault: Option<string>) returns (r: Reply)
      ensures fault.Some? ==> r == ServerError(fault)
      ensures fault.None? ==> r.TasksFetched?
                              && (forall d :: d in r.tasks <==> d in tasks && d.userId == Some(userId))
                              && multiset(r.tasks) <= multiset(tasks)
                              && r.tasks == Filter(OfUser(userId), tasks)
    {
      if fault.Some? {
        return ServerError(fault);
      }
      FilterExactly(OfUser(userId), tasks);
      r := TasksFetched(Filter(OfUser(userId), tasks));
    }
  }

  /** A task an admin adds for a user is in that user's list, and in the
      unscoped list every admin sees. */
  method AddThenList(c: TaskCollection, adminId: string, userId: string, body: TaskBody, newId: string)
    returns (added: Reply, mine: Reply, all: Reply)
    requires body.userId == Some(userId) && body.taskName.Some? && body.taskName.value != "" && body.dueDate.Some?
    modifies c
    ensures added.TaskAdded? && added.task.adminId == Some(adminId)
    ensures mine.TasksFetched? && added.task in mine.tasks
    ensures all.TasksFetched? && added.task in all.tasks
  {
    added := c.AddTask(adminId, body, newId, None);
    assert c.tasks[|c.tasks| - 1] == added.task;
    mine := c.GetUserTask(userId, None);
    all := c.GetTask(None);
  }
}
