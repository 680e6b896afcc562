/**
 * `client/src/state/reducers/taskReducer.ts`: the admin panel's Redux slice
 * for tasks. Actions are those of `client/src/types/actionTypes.ts`; a
 * Redux action of any other type (the store's own initialisation among them)
 * is `OtherAction`. The reducer receives `undefined` before the first action,
 * written here as `None`.
 */
module TaskReducer {
  import opened Wrappers

  /** `client/src/types/Task.ts`; its `userId` holds a `User`, which is not
      part of this model. The statuses are "To Do", "In Progress" and
      "Completed". */
  datatype ClientTaskStatus = ToDo | InProgress | Completed
  datatype ClientTask = ClientTask(id: string, adminId: string, assignTo: string, taskName: string,
                                   dueDate: int, status: ClientTaskStatus)

  datatype TaskState = TaskState(task: seq<ClientTask>, loading: bool, error: Option<string>)

  datatype TaskAction =
    | FetchTaskRequest
    | FetchTaskSuccess(task: seq<ClientTask>)
    | FetchTaskFailure(error: string)
    | GetAllTask(task: seq<ClientTask>)
    | OtherAction(kind: string)

  const INITIAL_STATE := TaskState([], false, None)

  /** The state a call starts from: the given one, or the initial state. */
  function Current(state: Option<TaskState>): (s: TaskState)
    ensures state.None? ==> s == INITIAL_STATE
    ensures state.Some? ==> s == state.value
  {
    state.GetOr(INITIAL_STATE)
  }

  /** The reducer as written. A failure action carries `error`, but the
      reducer reads `action.task`, which the action does not have, so the
      stored error is always `undefined`. */
  function TaskReducerAsWritten(state: Option<TaskState>, action: TaskAction): (s: TaskState)
    ensures action.FetchTaskFailure? ==>
              s == Current(state).(loading := false, error := None)
    ensures !action.FetchTaskFailure? ==> s == TaskReducer(state, action)
  {
    var current := Current(state);
    match action
    case FetchTaskFailure(_) => current.(loading := false, error := None)
    case _ => TaskReducer(state, action)
  }

  /** As written, the failure's message is lost: two failures with different
      messages leave the same state, with no error recorded. */
  lemma FailureMessageLostAsWritten(state: Option<TaskState>, m1: string, m2: string)
    ensures TaskReducerAsWritten(state, FetchTaskFailure(m1)) == TaskReducerAsWritten(state, FetchTaskFailure(m2))
    ensures TaskReducerAsWritten(state, FetchTaskFailure(m1)).error.None?
  {
  }

  /** The reducer as intended: a request sets `loading`; a success (either
      kind) replaces the list and clears `loading` and `error`; a failure
      clears `loading`, records its message and keeps the list; any other
      action leaves the state as it was. */
  function TaskReducer(state: Option<TaskState>, action: TaskAction): (s: TaskState)
    ensures action.FetchTaskRequest? ==> s == Current(state).(loading := true)
    ensures action.FetchTaskSuccess? || action.GetAllTask? ==> s == TaskState(action.task, false, None)
    ensures action.FetchTaskFailure? ==>
              s.task == Current(state).task && !s.loading && s.error == Some(action.error)
    ensures action.OtherAction? ==> s == Current(state)
  {
    var current := Current(state);
    match action
    case FetchTaskRequest => current.(loading := true)
    case FetchTaskSuccess(tasks) => current.(task := tasks, loading := false, error := None)
    case GetAllTask(tasks) => current.(task := tasks, loading := false, error := None)
    case FetchTaskFailure(message) => current.(loading := false, error := Some(message))
    case OtherAction(_) => current
  }

  /** Redux's initialisation yields the initial state. */
  lemma InitialisationGivesInitialState(kind: string)
    ensures TaskReducer(None, OtherAction(kind)) == INITIAL_STATE
  {
  }

  /** `FETCH_TASK_SUCCESS` and `GET_ALL_TASK` are the same transition. */
  lemma SuccessKindsAgree(state: Option<TaskState>, tasks: seq<ClientTask>)
    ensures TaskReducer(state, FetchTaskSuccess(tasks)) == TaskReducer(state, GetAllTask(tasks))
  {
  }

  /** A request then its outcome: loading again cleared, and the list is the
      fetched one on success or the previous one on failure. */
  lemma RequestThenOutcome(state: Option<TaskState>, tasks: seq<ClientTask>, message: string)
    ensures var pending := TaskReducer(state, FetchTaskRequest);
            && pending.loading
            && TaskReducer(Some(pending), FetchTaskSuccess(tasks)) == TaskState(tasks, false, None)
            && TaskReducer(Some(pending), FetchTaskFailure(message))
               == TaskState(Current(state).task, false, Some(message))
  {
  }
}
