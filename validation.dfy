/**
 * `src/app/api/lib/validation.ts`: the guards run on a parsed request body
 * before a task is created or a user signs up or logs in. Each guard throws an
 * `ApiError` with status 400; the first failing guard decides the error.
 */
module Validation {
  import opened Wrappers
  import opened JsString
  import opened Constants
  import opened JsValue
  import opened Helpers
  import opened ErrorHandler

  /** A parsed JSON body: an object, `null` (reading a field of it throws a
      `TypeError`), or any other value (each of its fields is `undefined`). */
  datatype JsonBody = Object(fields: map<string, Value>) | NullBody | OtherBody

  /** `data.name` of a body that is not `null`. */
  function Field(data: JsonBody, name: string): Value
    requires !data.NullBody?
  {
    if data.Object? && name in data.fields then data.fields[name] else Undefined
  }

  const TITLE_ERROR := "Title is required and must be a non-empty string"
  const DESCRIPTION_ERROR := "Description must be a string"
  const STATUS_ERROR := "Invalid status"
  const PRIORITY_ERROR := "Invalid priority"

  /** A title is a string with something other than whitespace in it. */
  predicate TitleOk(v: Value) {
    v.Str? && Trim(v.s) != []
  }

  /** A description is absent, falsy or a string. */
  predicate DescriptionOk(v: Value) {
    !Truthy(v) || v.Str?
  }

  /** A status is absent, falsy or one of the three status names. */
  predicate StatusOk(v: Value) {
    !Truthy(v) || (v.Str? && ParseStatus(v.s).Some?)
  }

  predicate PriorityOk(v: Value) {
    !Truthy(v) || (v.Str? && ParsePriority(v.s).Some?)
  }

  /** `validateTaskData(data)`: passes exactly when all four fields are
      acceptable; otherwise the first unacceptable one, in the order title,
      description, status, priority, names the 400 error. */
  function ValidateTaskData(data: JsonBody): (r: Outcome<Thrown>)
    ensures data.NullBody? ==> r == Fail(Other)
    ensures !data.NullBody? ==>
      (r.Pass? <==> TitleOk(Field(data, "title")) && DescriptionOk(Field(data, "description"))
                    && StatusOk(Field(data, "status")) && PriorityOk(Field(data, "priority")))
    ensures !data.NullBody? && !TitleOk(Field(data, "title")) ==> r == Fail(Raise(TITLE_ERROR, 400))
    ensures !data.NullBody? && TitleOk(Field(data, "title")) && !DescriptionOk(Field(data, "description"))
            ==> r == Fail(Raise(DESCRIPTION_ERROR, 400))
    ensures r.Fail? && r.error.Api? ==> r.error.error.statusCode == 400
  {
    if data.NullBody? then Fail(Other)
    else
      var title := Field(data, "title");
      if !Truthy(title) || !title.Str? || |Trim(title.s)| == 0 then Fail(Raise(TITLE_ERROR, 400))
      else if Truthy(Field(data, "description")) && !Field(data, "description").Str? then
        Fail(Raise(DESCRIPTION_ERROR, 400))
      else if !StatusOk(Field(data, "status")) then Fail(Raise(STATUS_ERROR, 400))
      else if !PriorityOk(Field(data, "priority")) then Fail(Raise(PRIORITY_ERROR, 400))
      else Pass
  }

  /** A present status that is not a status name is reported as such once the
      title and description are fine. */
  lemma InvalidStatusReported(data: JsonBody)
    requires !data.NullBody?
    requires TitleOk(Field(data, "title")) && DescriptionOk(Field(data, "description"))
    requires !StatusOk(Field(data, "status"))
    ensures ValidateTaskData(data) == Fail(Raise(STATUS_ERROR, 400))
  {
  }

  lemma InvalidPriorityReported(data: JsonBody)
    requires !data.NullBody?
    requires TitleOk(Field(data, "title")) && DescriptionOk(Field(data, "description"))
    requires StatusOk(Field(data, "status")) && !PriorityOk(Field(data, "priority"))
    ensures ValidateTaskData(data) == Fail(Raise(PRIORITY_ERROR, 400))
  {
  }

  datatype AuthKind = Login | Signup

  const ALL_FIELDS_REQUIRED := "All fields are required"
  const PASSWORDS_DO_NOT_MATCH := "Passwords do not match"
  const LOGIN_FIELDS_REQUIRED := "Email and password are required"
  const INVALID_EMAIL_FORMAT := "Invalid email format"
  const PASSWORD_TOO_SHORT := "Password must be at least 6 characters"

  /** `emailRegex.test(value)`: the test reads `String(value)`. Booleans,
      numbers, `null` and `undefined` print without an `@`. */
  predicate EmailTest(v: Value) {
    match v
    case Str(s) => ValidateEmail(s)
    case Composite(text, _) => ValidateEmail(text)
    case _ => false
  }

  /** `value.length < 6`: strings and arrays have a length; for any other
      value it is `undefined` and the comparison is false. */
  predicate TooShort(v: Value) {
    match v
    case Str(s) => |s| < PASSWORD_MIN_LENGTH
    case Composite(_, len) => len.Some? && len.value < PASSWORD_MIN_LENGTH
    case _ => false
  }

  /** The presence checks of `validateAuthData`. */
  predicate FieldsPresent(data: JsonBody, kind: AuthKind)
    requires !data.NullBody?
  {
    Truthy(Field(data, "email")) && Truthy(Field(data, "password"))
    && (kind.Signup? ==> Truthy(Field(data, "confirmPassword")))
  }

  /** `validateAuthData(data, type)`: passes exactly when the needed fields
      are present, a signup's passwords are strictly equal, the email matches
      the pattern and the password has at least 6 characters. */
  function ValidateAuthData(data: JsonBody, kind: AuthKind): (r: Outcome<Thrown>)
    ensures data.NullBody? ==> r == Fail(Other)
    ensures !data.NullBody? ==>
      (r.Pass? <==> FieldsPresent(data, kind)
                    && (kind.Signup? ==> StrictEquals(Field(data, "password"), Field(data, "confirmPassword")))
                    && EmailTest(Field(data, "email"))
                    && !TooShort(Field(data, "password")))
    ensures !data.NullBody? && !FieldsPresent(data, kind) ==>
      r == Fail(Raise(if kind.Signup? then ALL_FIELDS_REQUIRED else LOGIN_FIELDS_REQUIRED, 400))
    ensures r.Fail? && r.error.Api? ==> r.error.error.statusCode == 400
  {
    if data.NullBody? then Fail(Other)
    else
      var email := Field(data, "email");
      var password := Field(data, "password");
      var check :=
        if kind.Signup? then
          if !Truthy(email) || !Truthy(password) || !Truthy(Field(data, "confirmPassword")) then
            Fail(Raise(ALL_FIELDS_REQUIRED, 400))
          else if !StrictEquals(password, Field(data, "confirmPassword")) then
            Fail(Raise(PASSWORDS_DO_NOT_MATCH, 400))
          else Pass
        else if !Truthy(email) || !Truthy(password) then Fail(Raise(LOGIN_FIELDS_REQUIRED, 400))
        else Pass;
      if check.Fail? then check
      else if !EmailTest(email) then Fail(Raise(INVALID_EMAIL_FORMAT, 400))
      else if TooShort(password) then Fail(Raise(PASSWORD_TOO_SHORT, 400))
      else Pass
  }

  /** A login needs no `confirmPassword`: a body fit for signup is fit for
      login. */
  lemma SignupBodyPassesLogin(data: JsonBody)
    requires ValidateAuthData(data, Signup).Pass?
    ensures ValidateAuthData(data, Login).Pass?
  {
  }

  /** Two arrays or objects are never `===`, so a signup whose passwords are
      arrays is refused even when they print alike. */
  lemma CompositePasswordsNeverMatch(data: JsonBody)
    requires data.Object? && FieldsPresent(data, Signup)
    requires Field(data, "password").Composite?
    ensures ValidateAuthData(data, Signup) == Fail(Raise(PASSWORDS_DO_NOT_MATCH, 400))
  {
  }
}
