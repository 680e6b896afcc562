/**
 * `src/components/auth/SignupFrom.tsx`: the signup form. Its state is the
 * three field values with their error messages and touched flags, the
 * "remember me" box, and the success view with the address the verification
 * mail went to.
 */
module SignupForm {
  import opened Wrappers
  import opened JsString
  import opened Constants
  import opened Helpers
  import opened RememberedEmail
  import LoginForm

  const CONFIRM_REQUIRED := "Please confirm your password"
  const PASSWORDS_DO_NOT_MATCH := "Passwords do not match"

  /** `FormFieldName`. */
  datatype FormField = Email | Password | ConfirmPassword

  datatype SignupData = SignupData(email: string, password: string, confirmPassword: string)

  datatype Touched = Touched(email: bool, password: bool, confirmPassword: bool)

  const EMPTY := SignupData("", "", "")

  /** `validateField(name, value)`, where `password` is the password of the
      render the handler belongs to. Blank means `!value.trim()`. */
  function ValidateField(name: FormField, value: string, password: string): string {
    match name
    case Email =>
      if AllWhitespace(value) then EMAIL_REQUIRED
      else if !ValidateEmail(value) then EMAIL_INVALID
      else ""
    case Password =>
      if AllWhitespace(value) then PASSWORD_REQUIRED
      else if |value| < PASSWORD_MIN_LENGTH then PASSWORD_MIN_LENGTH_MESSAGE
      else ""
    case ConfirmPassword =>
      if AllWhitespace(value) then CONFIRM_REQUIRED
      else if value != password then PASSWORDS_DO_NOT_MATCH
      else ""
  }

  /** The email and password rules are the login form's, whatever the
      password to confirm against. */
  lemma RulesMatchLogin(value: string, password: string)
    ensures ValidateField(Email, value, password) == LoginForm.ValidateField("email", value)
    ensures ValidateField(Password, value, password) == LoginForm.ValidateField("password", value)
  {
  }

  /** The confirmation is accepted exactly when it is the password and the
      password is not blank; a blank one is asked for, a differing one is
      reported as a mismatch. */
  lemma ConfirmRule(value: string, password: string)
    ensures ValidateField(ConfirmPassword, value, password) == CONFIRM_REQUIRED <==> AllWhitespace(value)
    ensures ValidateField(ConfirmPassword, value, password) == PASSWORDS_DO_NOT_MATCH
            <==> !AllWhitespace(value) && value != password
    ensures ValidateField(ConfirmPassword, value, password) == "" <==> !AllWhitespace(value) && value == password
  {
  }

  function Errors(d: SignupData): SignupData {
    SignupData(ValidateField(Email, d.email, d.password), ValidateField(Password, d.password, d.password),
               ValidateField(ConfirmPassword, d.confirmPassword, d.password))
  }

  /** A form without errors carries a pattern-valid email and a non-blank
      password of at least 6 characters, confirmed exactly. */
  lemma NoErrorsMeaning(d: SignupData)
    ensures Errors(d) == EMPTY <==>
              ValidateEmail(d.email) && !AllWhitespace(d.password) && |d.password| >= PASSWORD_MIN_LENGTH
              && d.confirmPassword == d.password
  {
    LoginForm.ValidEmailNotBlank(d.email);
  }

  function Get(d: SignupData, f: FormField): string {
    match f
    case Email => d.email
    case Password => d.password
    case ConfirmPassword => d.confirmPassword
  }

  function Set(d: SignupData, f: FormField, value: string): (r: SignupData)
    ensures Get(r, f) == value
    ensures forall g :: g != f ==> Get(r, g) == Get(d, g)
  {
    match f
    case Email => d.(email := value)
    case Password => d.(password := value)
    case ConfirmPassword => d.(confirmPassword := value)
  }

  function IsTouched(t: Touched, f: FormField): bool {
    match f
    case Email => t.email
    case Password => t.password
    case ConfirmPassword => t.confirmPassword
  }

  function Touch(t: Touched, f: FormField): (r: Touched)
    ensures IsTouched(r, f)
    ensures forall g :: g != f ==> IsTouched(r, g) == IsTouched(t, g)
  {
    match f
    case Email => t.(email := true)
    case Password => t.(password := true)
    case ConfirmPassword => t.(confirmPassword := true)
  }

  class SignupFormState {
    var formData: SignupData
    var formErrors: SignupData
    var touched: Touched
    var rememberMe: bool
    var showSuccessMessage: bool
    var signupEmail: string

    constructor ()
      ensures formData == EMPTY && formErrors == EMPTY && touched == Touched(false, false, false)
      ensures !rememberMe && !showSuccessMessage && signupEmail == ""
    {
      formData := EMPTY;
      formErrors := EMPTY;
      touched := Touched(false, false, false);
      rememberMe := false;
      showSuccessMessage := false;
      signupEmail := "";
    }

    /** The mount effect: a remembered email fills the field and ticks the box. */
    method Mount(storage: BrowserStorage)
      modifies this
      ensures (formData.email, rememberMe) == OnMount(storage.rememberedEmail, old(formData.email), old(rememberMe))
      ensures formData.password == old(formData.password) && formData.confirmPassword == old(formData.confirmPassword)
      ensures formErrors == old(formErrors) && touched == old(touched)
      ensures showSuccessMessage == old(showSuccessMessage) && signupEmail == old(signupEmail)
    {
      var restored := OnMount(storage.rememberedEmail, formData.email, rememberMe);
      formData := formData.(email := restored.0);
      rememberMe := restored.1;
    }

    method SetRememberMe(b: bool)
      modifies this
      ensures rememberMe == b
      ensures formData == old(formData) && formErrors == old(formErrors) && touched == old(touched)
      ensures showSuccessMessage == old(showSuccessMessage) && signupEmail == old(signupEmail)
    {
      rememberMe := b;
    }

    /** `isFormValid`: no recorded error and no blank field. */
    predicate IsFormValid()
      reads this
    {
      formErrors == EMPTY && !AllWhitespace(formData.email) && !AllWhitespace(formData.password)
      && !AllWhitespace(formData.confirmPassword)
    }

    /** `handleInputChange`: the value changes; a touched field's error is
        recomputed against the password of the previous render. A changed
        password does not recheck its confirmation. */
    method HandleInputChange(f: FormField, value: string)
      modifies this
      ensures formData == Set(old(formData), f, value)
      ensures formErrors == if IsTouched(touched, f) then Set(old(formErrors), f, ValidateField(f, value, old(formData).password))
                            else old(formErrors)
      ensures touched == old(touched) && rememberMe == old(rememberMe)
      ensures showSuccessMessage == old(showSuccessMessage) && signupEmail == old(signupEmail)
    {
      var password := formData.password;
      formData := Set(formData, f, value);
      if IsTouched(touched, f) {
        formErrors := Set(formErrors, f, ValidateField(f, value, password));
      }
    }

    /** `handleBlur`: the field becomes touched and records the error of its
        current value. */
    method HandleBlur(f: FormField)
      modifies this
      ensures touched == Touch(old(touched), f)
      ensures formErrors == Set(old(formErrors), f, ValidateField(f, Get(formData, f), formData.password))
      ensures formData == old(formData) && rememberMe == old(rememberMe)
      ensures showSuccessMessage == old(showSuccessMessage) && signupEmail == old(signupEmail)
    {
      touched := Touch(touched, f);
      formErrors := Set(formErrors, f, ValidateField(f, Get(formData, f), formData.password));
    }

    /** `handleSubmit`: all three fields are touched and validated; signup is
        called exactly when none has an error, which is exactly when the form
        then counts as valid. `useAuth`'s `signup` catches every failure and
        resolves, so after every call the success view shows the submitted
        email and the email is remembered or forgotten as the box says, even
        when the signup was refused; without a call view and storage stay. */
    method HandleSubmit(storage: BrowserStorage) returns (called: bool)
      modifies this, storage
      ensures touched == Touched(true, true, true) && formErrors == Errors(formData)
      ensures called <==> formErrors == EMPTY
      ensures IsFormValid() <==> called
      ensures called ==>
                showSuccessMessage && signupEmail == formData.email
                && storage.rememberedEmail == if rememberMe then Some(formData.email) else None
      ensures !called ==>
                showSuccessMessage == old(showSuccessMessage) && signupEmail == old(signupEmail)
                && storage.rememberedEmail == old(storage.rememberedEmail)
      ensures formData == old(formData) && rememberMe == old(rememberMe)
    {
      touched := Touched(true, true, true);
      formErrors := Errors(formData);
      called := formErrors == EMPTY;
      NoErrorsMeaning(formData);
      LoginForm.ValidEmailNotBlank(formData.email);
      if called {
        showSuccessMessage := true;
        signupEmail := formData.email;
        storage.Remember(rememberMe, formData.email);
      }
    }

    /** "Sign up with a different email": back to an empty, untouched form
        without the success view. */
    method SignUpWithDifferentEmail()
      modifies this
      ensures formData == EMPTY && formErrors == EMPTY && touched == Touched(false, false, false)
      ensures !showSuccessMessage
      ensures rememberMe == old(rememberMe) && signupEmail == old(signupEmail)
    {
      showSuccessMessage := false;
      formData := EMPTY;
      formErrors := EMPTY;
      touched := Touched(false, false, false);
    }
  }
}
