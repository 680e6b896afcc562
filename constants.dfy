/** The enumerations and fixed values of `src/utils/constants.ts`. */
module Constants {
  import opened Wrappers

  datatype Status = Pending | InProgress | Completed

  /** The string each status is stored and sent as. */
  function StatusName(s: Status): string {
    match s
    case Pending => "pending"
    case InProgress => "in_progress"
    case Completed => "completed"
  }

  /** Reads a status back from its string; any other string is `None`. */
  function ParseStatus(s: string): (r: Option<Status>)
    ensures r.Some? ==> StatusName(r.value) == s
    ensures r.None? ==> forall st: Status :: StatusName(st) != s
  {
    if s == "pending" then Some(Pending)
    else if s == "in_progress" then Some(InProgress)
    else if s == "completed" then Some(Completed)
    else None
  }

  datatype Priority = Low | Medium | High

  function PriorityName(p: Priority): string {
    match p
    case Low => "low"
    case Medium => "medium"
    case High => "high"
  }

  function ParsePriority(s: string): (r: Option<Priority>)
    ensures r.Some? ==> PriorityName(r.value) == s
    ensures r.None? ==> forall p: Priority :: PriorityName(p) != s
  {
    if s == "low" then Some(Low)
    else if s == "medium" then Some(Medium)
    else if s == "high" then Some(High)
    else None
  }

  lemma StatusNamesRoundTrip(st: Status)
    ensures ParseStatus(StatusName(st)) == Some(st)
  {
  }

  lemma PriorityNamesRoundTrip(p: Priority)
    ensures ParsePriority(PriorityName(p)) == Some(p)
  {
  }

  // VALIDATION_RULES
  const PASSWORD_MIN_LENGTH: nat := 6
  const TASK_TITLE_MIN_LENGTH: nat := 3
  const TASK_DESCRIPTION_MAX_LENGTH: nat := 500

  // ERROR_MESSAGES.AUTH
  const EMAIL_REQUIRED := "Email is required"
  const PASSWORD_REQUIRED := "Password is required"
  const PASSWORD_MIN_LENGTH_MESSAGE := "Password must be at least 6 characters"
  const EMAIL_INVALID := "Please enter a valid email address"

  // ERROR_MESSAGES.TASKS
  const TITLE_REQUIRED := "Task title is required"
  const TITLE_MIN_LENGTH_MESSAGE := "Task title must be at least 3 characters"
  const DESCRIPTION_MAX_LENGTH_MESSAGE := "Description must be less than 500 characters"
}
