/**
 * `src/app/api/lib/error-handler.ts`: the `ApiError` exception and the
 * mapping of anything a route handler throws to an HTTP response. The JSON
 * responses of the API routes are modelled here too.
 */
module ErrorHandler {
  import opened Wrappers
  import opened Types

  /** An `ApiError`: an `Error` named "ApiError" carrying an HTTP status. */
  datatype ApiError = ApiError(name: string, message: string, statusCode: int)

  /** What a route handler can throw: an `ApiError`, or anything else (a
      `TypeError` from reading a property of `null`, a JSON syntax error, ...). */
  datatype Thrown = Api(error: ApiError) | Other

  /** The body of a `NextResponse.json(...)`. */
  datatype Body =
    | ErrorBody(error: string)
    | TaskListBody(tasks: seq<Task>)
    | TaskBody(task: Task)
    | ProfileBody(profile: Profile)

  datatype Response = Response(status: int, body: Body)

  const DEFAULT_STATUS := 500
  const INTERNAL_SERVER_ERROR := "Internal server error"

  /** `new ApiError(message, statusCode)`; a missing status code means 500. */
  function NewApiError(message: string, statusCode: Option<int>): (e: ApiError)
    ensures e.name == "ApiError" && e.message == message
    ensures statusCode.None? ==> e.statusCode == DEFAULT_STATUS
    ensures statusCode.Some? ==> e.statusCode == statusCode.value
  {
    ApiError("ApiError", message, statusCode.GetOr(DEFAULT_STATUS))
  }

  /** `handleApiError`: an `ApiError` answers with its own status and message,
      anything else with 500 "Internal server error". */
  function HandleApiError(thrown: Thrown): (r: Response)
    ensures r.body.ErrorBody?
    ensures thrown.Api? ==> r.status == thrown.error.statusCode && r.body.error == thrown.error.message
    ensures thrown.Other? ==> r.status == DEFAULT_STATUS && r.body.error == INTERNAL_SERVER_ERROR
  {
    match thrown
    case Api(e) => Response(e.statusCode, ErrorBody(e.message))
    case Other => Response(DEFAULT_STATUS, ErrorBody(INTERNAL_SERVER_ERROR))
  }

  /** Throwing `new ApiError(m, c)` answers with status `c` (500 when absent)
      and the message `m`: the two ends of the error path agree. */
  lemma ThrowThenHandle(message: string, statusCode: Option<int>)
    ensures HandleApiError(Api(NewApiError(message, statusCode)))
         == Response(statusCode.GetOr(DEFAULT_STATUS), ErrorBody(message))
  {
  }

  /** `throw new ApiError(message, status)`. */
  function Raise(message: string, status: int): Thrown {
    Api(NewApiError(message, Some(status)))
  }
}
