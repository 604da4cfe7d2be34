/**
 * The registration form (src/pages/login-register/components/RegisterForm.jsx):
 * input updates, the step-by-step validation of six checks, and the submit
 * handler around `signUp` (whose outcome is a parameter) with its error
 * mapping and the dashboard chosen by the selected role.
 */
module RegisterForm {
  import opened Common
  import opened JsText
  import opened Patterns
  import opened CredentialRules

  datatype RegisterData = RegisterData(
    fullName: string,
    email: string,
    phone: string,
    password: string,
    confirmPassword: string,
    role: string,
    agreeTerms: bool)

  const EmptyForm := RegisterData("", "", "", "", "", "victim", false)

  datatype RegisterField = FullName | Email | Phone | Password | ConfirmPassword | Role | AgreeTerms

  /** The keys of the `errors` object: one per input, and `general`. */
  datatype ErrorKey = FieldError(field: RegisterField) | General

  /** The change events: `value` for the text inputs and the role select, `checked` for the terms box. */
  datatype RegisterInput = TextInput(field: RegisterField, value: string) | TermsBox(checked: bool)

  function InputField(i: RegisterInput): RegisterField {
    match i
    case TextInput(f, _) => f
    case TermsBox(_) => AgreeTerms
  }

  /** `{ ...prev, [name]: type === 'checkbox' ? checked : value }`; a text event named like the box is not produced by the form. */
  function WithInput(d: RegisterData, i: RegisterInput): (r: RegisterData)
    ensures i.TermsBox? ==> r == d.(agreeTerms := i.checked)
    ensures i.TextInput? && i.field == Email ==> r == d.(email := i.value)
    ensures i.TextInput? && i.field == Role ==> r == d.(role := i.value)
  {
    match i
    case TermsBox(c) => d.(agreeTerms := c)
    case TextInput(f, v) =>
      match f
      case FullName => d.(fullName := v)
      case Email => d.(email := v)
      case Phone => d.(phone := v)
      case Password => d.(password := v)
      case ConfirmPassword => d.(confirmPassword := v)
      case Role => d.(role := v)
      case AgreeTerms => d
  }

  const NameRequired := "Full name is required"
  const PhoneRequired := "Phone number is required"
  const PhoneInvalid := "Please enter a valid phone number"
  const Mismatch := "Passwords do not match"
  const TermsRequired := "You must agree to the terms and conditions"

  /** The phone check: required after trimming, then the pattern on the text with every blank removed. */
  function PhoneMessage(phone: string): (r: Option<string>)
    ensures r.None? <==> !IsBlank(phone) && PhoneValid(RemoveSpaces(phone))
  {
    if IsBlank(phone) then Some(PhoneRequired)
    else if !PhoneValid(RemoveSpaces(phone)) then Some(PhoneInvalid)
    else None
  }

  /**
   * Blanks do not count toward the ten characters: a ten-character text of
   * phone characters with a blank in it matches the pattern as typed, yet is
   * refused, because the pattern is matched against the text with its blanks removed.
   */
  lemma SpacesDoNotCount(s: string, blank: int, other: int)
    requires |s| == 10 && forall i | 0 <= i < |s| :: PhoneChar(s[i])
    requires 0 <= blank < |s| && IsSpace(s[blank])
    requires 0 <= other < |s| && !IsSpace(s[other])
    ensures PhoneValid(s)
    ensures PhoneMessage(s) == Some(PhoneInvalid)
  {
    RawPhoneMatches(s);
    BlanksRemoved(s, blank);
    if PhoneValid(RemoveSpaces(s)) {
      PhoneValidLength(RemoveSpaces(s));
    }
  }

  /** "12345 6789", nine digits and a blank, is one such text. */
  lemma NineDigitsAndABlank()
    ensures PhoneValid("12345 6789")
    ensures PhoneMessage("12345 6789") == Some(PhoneInvalid)
  {
    var s := "12345 6789";
    assert forall i | 0 <= i < |s| :: PhoneChar(s[i]);
    SpacesDoNotCount(s, 5, 0);
  }

  /** Ten or more phone characters (digits, blanks, dashes, parentheses) match the pattern as they are. */
  lemma RawPhoneMatches(s: string)
    requires |s| >= 10 && forall i | 0 <= i < |s| :: PhoneChar(s[i])
    ensures PhoneValid(s)
  {
    assert s[0] != '+';
  }

  /** A text of at most ten characters with a blank in it is shorter than ten once its blanks are removed. */
  lemma BlanksRemoved(s: string, k: int)
    requires |s| <= 10 && 0 <= k < |s| && IsSpace(s[k])
    ensures |RemoveSpaces(s)| < 10
  {
    RemoveSpacesShorter(s, k);
  }

  /** The message recorded for each input, if any; the role is never checked. */
  function FieldMessage(d: RegisterData, f: RegisterField): (r: Option<string>)
    ensures f == Role ==> r.None?
  {
    match f
    case FullName => if IsBlank(d.fullName) then Some(NameRequired) else None
    case Email => EmailMessage(d.email)
    case Phone => PhoneMessage(d.phone)
    case Password => PasswordMessage(d.password)
    case ConfirmPassword => if d.password != d.confirmPassword then Some(Mismatch) else None
    case AgreeTerms => if !d.agreeTerms then Some(TermsRequired) else None
    case Role => None
  }

  /** `newErrors[field] = message` when a check fails. */
  function Put(m: map<ErrorKey, string>, f: RegisterField, message: Option<string>): map<ErrorKey, string> {
    if message.Some? then m[FieldError(f) := message.value] else m
  }

  /** The errors object validateForm builds, check after check. */
  function RegisterErrors(d: RegisterData): map<ErrorKey, string> {
    var m1 := Put(map[], FullName, FieldMessage(d, FullName));
    var m2 := Put(m1, Email, FieldMessage(d, Email));
    var m3 := Put(m2, Phone, FieldMessage(d, Phone));
    var m4 := Put(m3, Password, FieldMessage(d, Password));
    var m5 := Put(m4, ConfirmPassword, FieldMessage(d, ConfirmPassword));
    Put(m5, AgreeTerms, FieldMessage(d, AgreeTerms))
  }

  /** An input has an entry exactly when it fails, holding its first failed check's message; `general` is never set. */
  lemma RegisterErrorsMeaning(d: RegisterData)
    ensures forall f :: FieldError(f) in RegisterErrors(d) <==> FieldMessage(d, f).Some?
    ensures forall f | FieldError(f) in RegisterErrors(d) :: RegisterErrors(d)[FieldError(f)] == FieldMessage(d, f).value
    ensures General !in RegisterErrors(d)
  {
    var e := RegisterErrors(d);
    forall f ensures (FieldError(f) in e <==> FieldMessage(d, f).Some?) && (FieldError(f) in e ==> e[FieldError(f)] == FieldMessage(d, f).value) {
      RegisterErrorsAt(d, f);
    }
  }

  /** One input of RegisterErrors: only that input's own check writes its entry. */
  lemma RegisterErrorsAt(d: RegisterData, f: RegisterField)
    ensures FieldError(f) in RegisterErrors(d) <==> FieldMessage(d, f).Some?
    ensures FieldError(f) in RegisterErrors(d) ==> RegisterErrors(d)[FieldError(f)] == FieldMessage(d, f).value
  {
    var k := FieldError(f);
    var m1 := Put(map[], FullName, FieldMessage(d, FullName));
    var m2 := Put(m1, Email, FieldMessage(d, Email));
    var m3 := Put(m2, Phone, FieldMessage(d, Phone));
    var m4 := Put(m3, Password, FieldMessage(d, Password));
    var m5 := Put(m4, ConfirmPassword, FieldMessage(d, ConfirmPassword));
    PutAt(map[], FullName, FieldMessage(d, FullName), k);
    PutAt(m1, Email, FieldMessage(d, Email), k);
    PutAt(m2, Phone, FieldMessage(d, Phone), k);
    PutAt(m3, Password, FieldMessage(d, Password), k);
    PutAt(m4, ConfirmPassword, FieldMessage(d, ConfirmPassword), k);
    PutAt(m5, AgreeTerms, FieldMessage(d, AgreeTerms), k);
  }

  /** Put writes only its own input's entry. */
  lemma PutAt(m: map<ErrorKey, string>, f: RegisterField, message: Option<string>, k: ErrorKey)
    ensures k != FieldError(f) ==> (k in Put(m, f, message) <==> k in m) && (k in m ==> Put(m, f, message)[k] == m[k])
    ensures k == FieldError(f) ==> (k in Put(m, f, message) <==> k in m || message.Some?)
    ensures k == FieldError(f) && message.Some? ==> Put(m, f, message)[k] == message.value
  {
  }

  /**
   * The form passes exactly when the name is not blank, the e-mail matches,
   * the phone matches once its blanks are removed, the password is
   * non-blank and six characters or more, the confirmation equals it, and
   * the terms are accepted.
   */
  lemma RegisterValidIff(d: RegisterData)
    ensures RegisterErrors(d) == map[] <==>
              !IsBlank(d.fullName) && EmailValid(d.email) && !IsBlank(d.phone) && PhoneValid(RemoveSpaces(d.phone))
              && !IsBlank(d.password) && |d.password| >= 6 && d.confirmPassword == d.password && d.agreeTerms
  {
    RegisterErrorsMeaning(d);
    var e := RegisterErrors(d);
    if e == map[] {
      assert forall f :: FieldMessage(d, f).None? by {
        forall f ensures FieldMessage(d, f).None? {
          assert FieldError(f) !in e;
        }
      }
      assert FieldMessage(d, FullName).None? && FieldMessage(d, Email).None? && FieldMessage(d, Phone).None?;
      assert FieldMessage(d, Password).None? && FieldMessage(d, ConfirmPassword).None? && FieldMessage(d, AgreeTerms).None?;
    } else {
      var k :| k in e;
    }
  }

  /** A mismatched confirmation is reported even when the password itself is also rejected. */
  lemma MismatchIndependent(d: RegisterData)
    requires d.password != d.confirmPassword
    ensures FieldError(ConfirmPassword) in RegisterErrors(d)
  {
    RegisterErrorsMeaning(d);
  }

  const AlreadyRegistered := "This email is already registered. Please sign in instead."
  const RegisterFallback := "Registration failed. Please try again."

  /** The errors a finished signUp leaves: none after data, an e-mail error for a known address, one `general` message otherwise. */
  function SignUpErrors(outcome: AuthOutcome): (r: map<ErrorKey, string>)
    ensures |r.Keys| <= 1
    ensures r == map[] <==> outcome.AuthData?
    ensures outcome.AuthError? && outcome.message.Some? && Includes(outcome.message.value, "User already registered") <==>
              r == map[FieldError(Email) := AlreadyRegistered]
    ensures outcome.AuthThrew? ==> r == map[General := Unexpected]
  {
    match outcome
    case AuthData(_) => map[]
    case AuthThrew => map[General := Unexpected]
    case AuthError(m) =>
      if m.Some? && Includes(m.value, "User already registered") then map[FieldError(Email) := AlreadyRegistered]
      else map[General := GeneralMessage(m, RegisterFallback)]
  }

  /** The dashboard a new account is sent to: the victim's for role 'victim', the volunteer's for any other. */
  function DashboardFor(role: string): string {
    if role == "victim" then "/victim-dashboard" else "/volunteer-dashboard"
  }

  /** The body of validateForm: the six checks in order, each adding its message when it fails. */
  method CollectErrors(d: RegisterData) returns (newErrors: map<ErrorKey, string>)
    ensures newErrors == RegisterErrors(d)
  {
    newErrors := map[];
    if IsBlank(d.fullName) {
      newErrors := newErrors[FieldError(FullName) := NameRequired];
    }
    ghost var m1 := newErrors;
    assert m1 == Put(map[], FullName, FieldMessage(d, FullName));
    var emailMessage := EmailMessage(d.email);
    if emailMessage.Some? {
      newErrors := newErrors[FieldError(Email) := emailMessage.value];
    }
    ghost var m2 := newErrors;
    assert m2 == Put(m1, Email, FieldMessage(d, Email));
    var phoneMessage := PhoneMessage(d.phone);
    if phoneMessage.Some? {
      newErrors := newErrors[FieldError(Phone) := phoneMessage.value];
    }
    ghost var m3 := newErrors;
    assert m3 == Put(m2, Phone, FieldMessage(d, Phone));
    var passwordMessage := PasswordMessage(d.password);
    if passwordMessage.Some? {
      newErrors := newErrors[FieldError(Password) := passwordMessage.value];
    }
    ghost var m4 := newErrors;
    assert m4 == Put(m3, Password, FieldMessage(d, Password));
    if d.password != d.confirmPassword {
      newErrors := newErrors[FieldError(ConfirmPassword) := Mismatch];
    }
    ghost var m5 := newErrors;
    assert m5 == Put(m4, ConfirmPassword, FieldMessage(d, ConfirmPassword));
    if !d.agreeTerms {
      newErrors := newErrors[FieldError(AgreeTerms) := TermsRequired];
    }
    assert newErrors == Put(m5, AgreeTerms, FieldMessage(d, AgreeTerms));
  }

  class SignUpForm {
    var formData: RegisterData
    var errors: map<ErrorKey, string>
    var isLoading: bool

    constructor ()
      ensures formData == EmptyForm && errors == map[] && !isLoading
    {
      formData := EmptyForm;
      errors := map[];
      isLoading := false;
    }

    /** handleInputChange: stores the input and blanks that input's error if one is shown. */
    method InputChange(i: RegisterInput)
      modifies this
      ensures formData == WithInput(old(formData), i)
      ensures var k := FieldError(InputField(i));
        errors == if k in old(errors) && old(errors)[k] != "" then old(errors)[k := ""] else old(errors)
      ensures isLoading == old(isLoading)
    {
      formData := WithInput(formData, i);
      var k := FieldError(InputField(i));
      if k in errors && errors[k] != "" {
        errors := errors[k := ""];
      }
    }

    /** validateForm: the errors object is rebuilt from scratch, one check after the other. */
    method ValidateForm() returns (ok: bool)
      modifies this
      ensures errors == RegisterErrors(formData)
      ensures ok <==> RegisterErrors(formData) == map[]
      ensures formData == old(formData) && isLoading == old(isLoading)
    {
      var newErrors := CollectErrors(formData);
      errors := newErrors;
      ok := |newErrors| == 0;
    }

    /**
     * handleSubmit: an invalid form never calls signUp. Otherwise the errors
     * are cleared and replaced by the outcome's, and a returned user sends
     * the page to the selected role's dashboard.
     */
    method Submit(outcome: AuthOutcome) returns (called: bool, route: Option<string>)
      modifies this
      ensures called <==> RegisterErrors(formData) == map[]
      ensures !called ==> errors == RegisterErrors(formData) && route.None?
      ensures called ==> errors == SignUpErrors(outcome)
      ensures route.Some? <==> called && outcome == AuthData(true)
      ensures route.Some? ==> route.value == DashboardFor(formData.role)
      ensures isLoading == (old(isLoading) && !called)
      ensures formData == old(formData)
    {
      called := ValidateForm();
      if !called {
        return called, None;
      }
      isLoading := true;
      errors := map[];
      errors := SignUpErrors(outcome);
      route := if outcome == AuthData(true) then Some(DashboardFor(formData.role)) else None;
      isLoading := false;
    }
  }
}
