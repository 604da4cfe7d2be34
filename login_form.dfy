/**
 * The sign-in form (src/pages/login-register/components/LoginForm.jsx):
 * input updates, the step-by-step validation, the submit handler around
 * `signIn` (whose outcome is a parameter), the demo-credential buttons and
 * the forgot-password link.
 */
module LoginForm {
  import opened Common
  import opened JsText
  import opened Patterns
  import opened CredentialRules

  datatype LoginData = LoginData(email: string, password: string, rememberMe: bool)

  datatype LoginField = EmailField | PasswordField | RememberMeField

  /** The keys of the `errors` object: one per input, and `general`. */
  datatype ErrorKey = FieldError(field: LoginField) | General

  /** The change events of the three inputs: `value` for the text inputs, `checked` for the box. */
  datatype LoginInput = EmailInput(email: string) | PasswordInput(password: string) | RememberMeBox(checked: bool)

  function InputField(i: LoginInput): LoginField {
    match i
    case EmailInput(_) => EmailField
    case PasswordInput(_) => PasswordField
    case RememberMeBox(_) => RememberMeField
  }

  /** `{ ...prev, [name]: type === 'checkbox' ? checked : value }`. */
  function WithInput(d: LoginData, i: LoginInput): (r: LoginData)
    ensures i.EmailInput? ==> r == d.(email := i.email)
    ensures i.PasswordInput? ==> r == d.(password := i.password)
    ensures i.RememberMeBox? ==> r == d.(rememberMe := i.checked)
  {
    match i
    case EmailInput(e) => d.(email := e)
    case PasswordInput(p) => d.(password := p)
    case RememberMeBox(c) => d.(rememberMe := c)
  }

  /** The errors object validateForm builds: the e-mail check, then the password check. */
  function LoginErrors(d: LoginData): (r: map<ErrorKey, string>)
    ensures r.Keys <= {FieldError(EmailField), FieldError(PasswordField)}
    ensures FieldError(EmailField) in r <==> EmailMessage(d.email).Some?
    ensures FieldError(PasswordField) in r <==> PasswordMessage(d.password).Some?
    ensures FieldError(EmailField) in r ==> r[FieldError(EmailField)] == EmailMessage(d.email).value
    ensures FieldError(PasswordField) in r ==> r[FieldError(PasswordField)] == PasswordMessage(d.password).value
  {
    var m: map<ErrorKey, string> := if EmailMessage(d.email).Some? then map[FieldError(EmailField) := EmailMessage(d.email).value] else map[];
    if PasswordMessage(d.password).Some? then m[FieldError(PasswordField) := PasswordMessage(d.password).value] else m
  }

  /** The form passes exactly when the e-mail matches the pattern and the password is non-blank and six characters or more. */
  lemma LoginValidIff(d: LoginData)
    ensures LoginErrors(d) == map[] <==> EmailValid(d.email) && !IsBlank(d.password) && |d.password| >= 6
  {
    if LoginErrors(d) == map[] {
      assert FieldError(EmailField) !in LoginErrors(d);
    }
  }

  const InvalidCredentials := "Invalid email or password. Please try again."
  const LoginFallback := "Login failed. Please try again."

  /** The errors a finished signIn leaves: none after data, one `general` message otherwise. */
  function SignInErrors(outcome: AuthOutcome): (r: map<ErrorKey, string>)
    ensures r.Keys == if outcome.AuthData? then {} else {General}
    ensures outcome.AuthError? && outcome.message.Some? && Includes(outcome.message.value, "Invalid login credentials") ==>
              r[General] == InvalidCredentials
    ensures outcome.AuthThrew? ==> r[General] == Unexpected
  {
    match outcome
    case AuthData(_) => map[]
    case AuthThrew => map[General := Unexpected]
    case AuthError(m) =>
      if m.Some? && Includes(m.value, "Invalid login credentials") then map[General := InvalidCredentials]
      else map[General := GeneralMessage(m, LoginFallback)]
  }

  /** The demo buttons' table: 'victim', 'volunteer' and 'admin' each have an e-mail and a password. */
  function DemoCredentials(userType: string): (r: Option<(string, string)>)
    ensures r.Some? <==> userType in {"victim", "volunteer", "admin"}
  {
    match userType
    case "victim" => Some(("victim@resqnet.com", "victim123"))
    case "volunteer" => Some(("volunteer@resqnet.com", "volunteer123"))
    case "admin" => Some(("admin@resqnet.com", "admin123"))
    case _ => None
  }

  /** Every demo credential passes the form's own checks. */
  lemma DemoCredentialsValid(userType: string)
    requires DemoCredentials(userType).Some?
    ensures var c := DemoCredentials(userType).value;
      LoginErrors(LoginData(c.0, c.1, false)) == map[]
  {
    var c := DemoCredentials(userType).value;
    var e := c.0;
    var at := if userType == "victim" then 6 else if userType == "volunteer" then 9 else 5;
    assert EmailAt(e, at, at + 8);
    assert !IsSpace(c.1[0]);
    LoginValidIff(LoginData(c.0, c.1, false));
  }

  const ForgotPasswordMessage := "Please enter your email address first"

  class SignInForm {
    var formData: LoginData
    var errors: map<ErrorKey, string>
    var isLoading: bool

    constructor ()
      ensures formData == LoginData("", "", false) && errors == map[] && !isLoading
    {
      formData := LoginData("", "", false);
      errors := map[];
      isLoading := false;
    }

    /** handleInputChange: stores the input and blanks that input's error if one is shown. */
    method InputChange(i: LoginInput)
      modifies this
      ensures formData == WithInput(old(formData), i)
      ensures var k := FieldError(InputField(i));
        errors == if k in old(errors) && old(errors)[k] != "" then old(errors)[k := ""] else old(errors)
      ensures isLoading == old(isLoading)
    {
      formData := WithInput(formData, i);
      var k := FieldError(InputField(i));
      if k in errors && errors[k] != "" {
        errors := errors[k := ""];
      }
    }

    /** validateForm: the errors object is rebuilt, the e-mail checked first and the password second. */
    method ValidateForm() returns (ok: bool)
      modifies this
      ensures errors == LoginErrors(formData)
      ensures ok <==> EmailValid(formData.email) && !IsBlank(formData.password) && |formData.password| >= 6
      ensures formData == old(formData) && isLoading == old(isLoading)
    {
      var newErrors: map<ErrorKey, string> := map[];
      var emailMessage := EmailMessage(formData.email);
      if emailMessage.Some? {
        newErrors := newErrors[FieldError(EmailField) := emailMessage.value];
      }
      var passwordMessage := PasswordMessage(formData.password);
      if passwordMessage.Some? {
        newErrors := newErrors[FieldError(PasswordField) := passwordMessage.value];
      }
      errors := newErrors;
      LoginValidIff(formData);
      ok := |newErrors| == 0;
    }

    /**
     * handleSubmit: an invalid form never calls signIn. Otherwise the errors
     * are cleared, the outcome's errors shown, and a returned user sends the
     * page to the victim dashboard whatever the account's role.
     */
    method Submit(outcome: AuthOutcome) returns (called: bool, route: Option<string>)
      modifies this
      ensures called <==> LoginErrors(formData) == map[]
      ensures !called ==> errors == LoginErrors(formData) && route.None?
      ensures called ==> errors == SignInErrors(outcome)
      ensures called && outcome == AuthData(true) <==> route == Some("/victim-dashboard")
      ensures route.Some? ==> route == Some("/victim-dashboard")
      ensures isLoading == (old(isLoading) && !called)
      ensures formData == old(formData)
    {
      called := ValidateForm();
      LoginValidIff(formData);
      if !called {
        return called, None;
      }
      isLoading := true;
      errors := map[];
      errors := SignInErrors(outcome);
      route := if outcome == AuthData(true) then Some("/victim-dashboard") else None;
      isLoading := false;
    }

    /** handleForgotPassword: with no e-mail typed, the errors become that one message; otherwise nothing happens. */
    method ForgotPassword()
      modifies this
      ensures old(formData.email) == "" ==> errors == map[FieldError(EmailField) := ForgotPasswordMessage]
      ensures old(formData.email) != "" ==> errors == old(errors)
      ensures formData == old(formData) && isLoading == old(isLoading)
    {
      if formData.email == "" {
        errors := map[FieldError(EmailField) := ForgotPasswordMessage];
      }
    }

    /** fillDemoCredentials: a known demo account fills e-mail and password and keeps the box; any other name changes nothing. */
    method FillDemoCredentials(userType: string)
      modifies this
      ensures DemoCredentials(userType).Some? ==>
                formData == old(formData).(email := DemoCredentials(userType).value.0, password := DemoCredentials(userType).value.1)
      ensures DemoCredentials(userType).None? ==> formData == old(formData)
      ensures errors == old(errors) && isLoading == old(isLoading)
    {
      var credentials := DemoCredentials(userType);
      if credentials.Some? {
        formData := formData.(email := credentials.value.0, password := credentials.value.1);
      }
    }
  }
}
