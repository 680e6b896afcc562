/**
 * `src/components/auth/LoginForm.tsx`: the login form. Its state is the two
 * field values, their error messages and touched flags and the "remember me"
 * box.
 */
module LoginForm {
  import opened Wrappers
  import opened JsString
  import opened Constants
  import opened Helpers
  import opened RememberedEmail

  /** An address passing the pattern has an `@`, so it is not blank. */
  lemma ValidEmailNotBlank(value: string)
    ensures ValidateEmail(value) ==> !AllWhitespace(value)
  {
    if ValidateEmail(value) {
      var i := IndexOf(value, '@');
      assert !IsWhitespace(value[i]);
    }
  }

  /** The email rule: blank (`!value.trim()`, an empty trim being exactly
      an all-whitespace value), then the pattern. */
  function EmailFieldError(value: string): string {
    if AllWhitespace(value) then EMAIL_REQUIRED
    else if !ValidateEmail(value) then EMAIL_INVALID
    else ""
  }

  /** The email rule's messages: required exactly for a blank value, invalid
      exactly for a non-blank value off the pattern, none exactly for an
      address on it. */
  lemma EmailFieldErrorMeaning(value: string)
    ensures EmailFieldError(value) == EMAIL_REQUIRED <==> AllWhitespace(value)
    ensures EmailFieldError(value) == EMAIL_INVALID <==> !AllWhitespace(value) && !ValidateEmail(value)
    ensures EmailFieldError(value) == "" <==> ValidateEmail(value)
  {
    ValidEmailNotBlank(value);
  }

  /** The password rule: blank after trimming, then fewer than 6 characters
      counted untrimmed. */
  function PasswordFieldError(value: string): string {
    if AllWhitespace(value) then PASSWORD_REQUIRED
    else if |value| < PASSWORD_MIN_LENGTH then PASSWORD_MIN_LENGTH_MESSAGE
    else ""
  }

  lemma PasswordFieldErrorMeaning(value: string)
    ensures PasswordFieldError(value) == PASSWORD_REQUIRED <==> AllWhitespace(value)
    ensures PasswordFieldError(value) == PASSWORD_MIN_LENGTH_MESSAGE <==> !AllWhitespace(value) && |value| < PASSWORD_MIN_LENGTH
    ensures PasswordFieldError(value) == "" <==> !AllWhitespace(value) && |value| >= PASSWORD_MIN_LENGTH
  {
  }

  /** `validateField(name, value)`: "" when acceptable; names other than the
      two fields are never wrong. */
  function ValidateField(name: string, value: string): (err: string)
    ensures name == "email" ==> err == EmailFieldError(value)
    ensures name == "password" ==> err == PasswordFieldError(value)
    ensures name != "email" && name != "password" ==> err == ""
  {
    if name == "email" then EmailFieldError(value)
    else if name == "password" then PasswordFieldError(value)
    else ""
  }

  /** The form's email rule is the shared pattern check; its password rule is
      stricter than `validatePassword`, which also takes six spaces. */
  lemma FieldRulesAgainstHelpers(email: string, password: string)
    ensures ValidateField("email", email) == "" <==> ValidateEmail(email)
    ensures ValidateField("password", password) == "" ==> ValidatePassword(password).Valid?
    ensures ValidatePassword("      ").Valid? && ValidateField("password", "      ") == PASSWORD_REQUIRED
  {
    EmailFieldErrorMeaning(email);
    PasswordFieldErrorMeaning(password);
    assert AllWhitespace("      ");
  }

  datatype LoginField = Email | Password

  function FieldName(f: LoginField): string {
    match f
    case Email => "email"
    case Password => "password"
  }

  /** `{ email, password }`: the values, and alike the error messages. */
  datatype Credentials = Credentials(email: string, password: string)

  datatype Touched = Touched(email: bool, password: bool)

  /** The messages of both fields for the given values. */
  function Errors(data: Credentials): Credentials {
    Credentials(EmailFieldError(data.email), PasswordFieldError(data.password))
  }

  /** Both fields are free of errors exactly when the email is on the pattern
      and the password is non-blank with at least 6 characters; such a form
      is valid. */
  lemma NoErrorsMeaning(data: Credentials)
    ensures Errors(data) == Credentials("", "") <==>
              ValidateEmail(data.email) && !AllWhitespace(data.password) && |data.password| >= PASSWORD_MIN_LENGTH
    ensures Errors(data) == Credentials("", "") ==> !AllWhitespace(data.email)
  {
    EmailFieldErrorMeaning(data.email);
    PasswordFieldErrorMeaning(data.password);
  }

  function SetField(c: Credentials, f: LoginField, value: string): (r: Credentials)
    ensures f == Email ==> r == c.(email := value)
    ensures f == Password ==> r == c.(password := value)
  {
    if f == Email then c.(email := value) else c.(password := value)
  }

  function FieldError(f: LoginField, value: string): (err: string)
    ensures err == ValidateField(FieldName(f), value)
  {
    if f == Email then EmailFieldError(value) else PasswordFieldError(value)
  }

  function IsTouched(t: Touched, f: LoginField): bool {
    if f == Email then t.email else t.password
  }

  class LoginFormState {
    var formData: Credentials
    var formErrors: Credentials
    var touched: Touched
    var rememberMe: bool

    constructor ()
      ensures formData == Credentials("", "") && formErrors == Credentials("", "")
      ensures touched == Touched(false, false) && !rememberMe
    {
      formData := Credentials("", "");
      formErrors := Credentials("", "");
      touched := Touched(false, false);
      rememberMe := false;
    }

    /** The mount effect: a remembered email fills the field and ticks the box. */
    method Mount(storage: BrowserStorage)
      modifies this
      ensures (formData.email, rememberMe) == OnMount(storage.rememberedEmail, old(formData.email), old(rememberMe))
      ensures formData.password == old(formData.password)
      ensures formErrors == old(formErrors) && touched == old(touched)
    {
      var restored := OnMount(storage.rememberedEmail, formData.email, rememberMe);
      formData := formData.(email := restored.0);
      rememberMe := restored.1;
    }

    method SetRememberMe(b: bool)
      modifies this
      ensures rememberMe == b
      ensures formData == old(formData) && formErrors == old(formErrors) && touched == old(touched)
    {
      rememberMe := b;
    }

    /** `isFormValid`: no recorded error and neither field blank. */
    predicate IsFormValid()
      reads this
    {
      formErrors == Credentials("", "") && !AllWhitespace(formData.email) && !AllWhitespace(formData.password)
    }

    /** `handleInputChange`: the value changes; its error is recomputed only
        when the field has been touched. */
    method HandleInputChange(f: LoginField, value: string)
      modifies this
      ensures formData == SetField(old(formData), f, value)
      ensures formErrors == if IsTouched(touched, f) then SetField(old(formErrors), f, FieldError(f, value))
                            else old(formErrors)
      ensures touched == old(touched) && rememberMe == old(rememberMe)
    {
      formData := SetField(formData, f, value);
      if IsTouched(touched, f) {
        formErrors := SetField(formErrors, f, FieldError(f, value));
      }
    }

    /** `handleBlur`: the field becomes touched and records the error of its
        current value. */
    method HandleBlur(f: LoginField)
      modifies this
      ensures touched == if f == Email then old(touched).(email := true) else old(touched).(password := true)
      ensures formErrors == SetField(old(formErrors), f, FieldError(f, if f == Email then formData.email else formData.password))
      ensures formData == old(formData) && rememberMe == old(rememberMe)
    {
      touched := if f == Email then touched.(email := true) else touched.(password := true);
      var value := if f == Email then formData.email else formData.password;
      formErrors := SetField(formErrors, f, FieldError(f, value));
    }

    /** `handleSubmit`: both fields are touched and validated; login is
        called exactly when neither has an error, which is exactly when the
        form then counts as valid. `useAuth`'s `login` catches every failure
        and resolves, so after every call, refused or not, the email is
        remembered when the box is ticked and forgotten otherwise; without a
        call the storage stays. */
    method HandleSubmit(storage: BrowserStorage) returns (called: bool)
      modifies this, storage
      ensures touched == Touched(true, true) && formErrors == Errors(formData)
      ensures called <==> formErrors == Credentials("", "")
      ensures IsFormValid() <==> called
      ensures called ==> storage.rememberedEmail == if rememberMe then Some(formData.email) else None
      ensures !called ==> storage.rememberedEmail == old(storage.rememberedEmail)
      ensures formData == old(formData) && rememberMe == old(rememberMe)
    {
      touched := Touched(true, true);
      formErrors := Errors(formData);
      called := formErrors == Credentials("", "");
      NoErrorsMeaning(formData);
      if called {
        storage.Remember(rememberMe, formData.email);
      }
    }
  }
}
