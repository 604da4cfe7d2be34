/**
 * The password and two-factor card of the profile page
 * (src/pages/user-profile/components/AccountSecurity.jsx): the password
 * form with its step-by-step validation, the submit and two-factor
 * handlers around the `onSave` callback (whose success is a parameter),
 * and the show/hide switches of the three password inputs.
 */
module AccountSecurity {
  import opened Common
  import opened Patterns

  datatype PasswordField = CurrentPassword | NewPassword | ConfirmPassword

  datatype PasswordData = PasswordData(currentPassword: string, newPassword: string, confirmPassword: string)

  const BlankPasswords := PasswordData("", "", "")

  function Get(d: PasswordData, f: PasswordField): string {
    match f
    case CurrentPassword => d.currentPassword
    case NewPassword => d.newPassword
    case ConfirmPassword => d.confirmPassword
  }

  /** `{ ...prev, [field]: value }`. */
  function With(d: PasswordData, f: PasswordField, v: string): (r: PasswordData)
    ensures Get(r, f) == v
    ensures forall g | g != f :: Get(r, g) == Get(d, g)
  {
    match f
    case CurrentPassword => d.(currentPassword := v)
    case NewPassword => d.(newPassword := v)
    case ConfirmPassword => d.(confirmPassword := v)
  }

  /** The keys of the `errors` object: one per input, and `submit`. */
  datatype ErrorKey = FieldError(field: PasswordField) | SubmitError

  const CurrentRequired := "Current password is required"
  const NewRequired := "New password is required"
  const TooShort := "Password must be at least 8 characters"
  const TooWeak := "Password must contain uppercase, lowercase, and number"
  const ConfirmRequired := "Please confirm your new password"
  const Mismatch := "Passwords do not match"
  const SubmitFailed := "Failed to update password. Please try again."

  /** A new password the form accepts: non-empty, 8 characters or more, and matching the look-ahead pattern. */
  predicate AcceptableNewPassword(p: string) {
    p != "" && |p| >= 8 && StrongPassword(p)
  }

  /**
   * The message validatePassword records for the new password: only the
   * first failed check (required, then length, then character classes).
   */
  function NewPasswordError(p: string): (r: Option<string>)
    ensures r.None? <==> AcceptableNewPassword(p)
    ensures r == Some(TooShort) <==> 0 < |p| < 8
    ensures r == Some(TooWeak) <==> |p| >= 8 && !StrongPassword(p)
  {
    if p == "" then Some(NewRequired)
    else if |p| < 8 then Some(TooShort)
    else if !StrongPassword(p) then Some(TooWeak)
    else None
  }

  /** The message validatePassword records for one input, if any. */
  function FieldMessage(d: PasswordData, f: PasswordField): Option<string> {
    match f
    case CurrentPassword => if d.currentPassword == "" then Some(CurrentRequired) else None
    case NewPassword => NewPasswordError(d.newPassword)
    case ConfirmPassword =>
      if d.confirmPassword == "" then Some(ConfirmRequired)
      else if d.newPassword != d.confirmPassword then Some(Mismatch)
      else None
  }

  predicate NoFieldMessage(d: PasswordData) {
    forall f :: FieldMessage(d, f).None?
  }

  /**
   * The form passes exactly when a current password is given and the new
   * password is acceptable and typed twice the same way (an empty
   * confirmation cannot match an acceptable new password).
   */
  lemma PasswordAcceptedIff(d: PasswordData)
    ensures NoFieldMessage(d) <==>
              d.currentPassword != "" && AcceptableNewPassword(d.newPassword) && d.confirmPassword == d.newPassword
  {
    if !NoFieldMessage(d) {
      var f :| FieldMessage(d, f).Some?;
    } else {
      assert FieldMessage(d, CurrentPassword).None? && FieldMessage(d, NewPassword).None? && FieldMessage(d, ConfirmPassword).None?;
    }
  }

  /** Any mismatch between the two new-password inputs is reported on the confirmation. */
  lemma MismatchReported(d: PasswordData)
    requires d.confirmPassword != "" && d.newPassword != d.confirmPassword
    ensures FieldMessage(d, ConfirmPassword) == Some(Mismatch) && !NoFieldMessage(d)
  {
  }

  /** The three show/hide switches. */
  datatype Visibility = Visibility(showCurrent: bool, showNew: bool, showConfirm: bool)

  function Shown(v: Visibility, f: PasswordField): bool {
    match f
    case CurrentPassword => v.showCurrent
    case NewPassword => v.showNew
    case ConfirmPassword => v.showConfirm
  }

  /** togglePasswordVisibility: `{ ...prev, [field]: !prev[field] }`. */
  function ToggleVisibility(v: Visibility, f: PasswordField): (r: Visibility)
    ensures Shown(r, f) == !Shown(v, f)
    ensures forall g | g != f :: Shown(r, g) == Shown(v, g)
  {
    match f
    case CurrentPassword => v.(showCurrent := !v.showCurrent)
    case NewPassword => v.(showNew := !v.showNew)
    case ConfirmPassword => v.(showConfirm := !v.showConfirm)
  }

  /** Toggling the same switch twice restores it. */
  lemma ToggleVisibilityTwice(v: Visibility, f: PasswordField)
    ensures ToggleVisibility(ToggleVisibility(v, f), f) == v
  {
  }

  /**
   * What onSave is called with: `{type: 'password', data}`,
   * `{type: 'twoFactor', enabled}`, or `{type: 'revokeSession', sessionId}`
   * (handleSessionRevoke only forwards the last one and changes nothing).
   */
  datatype SecurityUpdate = PasswordUpdate(data: PasswordData) | TwoFactorUpdate(enabled: bool) | RevokeSession(sessionId: int)

  /**
   * The checks of validatePassword, one after the other, on a fresh errors
   * object: each input gets the message of its first failed check.
   */
  method CollectPasswordErrors(d: PasswordData) returns (m: map<ErrorKey, string>)
    ensures forall f :: FieldError(f) in m <==> FieldMessage(d, f).Some?
    ensures forall f | FieldError(f) in m :: m[FieldError(f)] == FieldMessage(d, f).value
    ensures SubmitError !in m
    ensures |m| == 0 <==> NoFieldMessage(d)
  {
    m := map[];
    if d.currentPassword == "" {
      m := m[FieldError(CurrentPassword) := CurrentRequired];
    }
    var m1 := m;
    if d.newPassword == "" {
      m := m[FieldError(NewPassword) := NewRequired];
    } else if |d.newPassword| < 8 {
      m := m[FieldError(NewPassword) := TooShort];
    } else if !StrongPassword(d.newPassword) {
      m := m[FieldError(NewPassword) := TooWeak];
    }
    var m2 := m;
    assert m2.Keys <= {FieldError(CurrentPassword), FieldError(NewPassword)};
    if d.confirmPassword == "" {
      m := m[FieldError(ConfirmPassword) := ConfirmRequired];
    } else if d.newPassword != d.confirmPassword {
      m := m[FieldError(ConfirmPassword) := Mismatch];
    }
    forall f ensures FieldError(f) in m <==> FieldMessage(d, f).Some?
      ensures FieldError(f) in m ==> m[FieldError(f)] == FieldMessage(d, f).value
    {
      match f
      case CurrentPassword =>
        assert FieldError(f) in m <==> FieldError(f) in m1;
      case NewPassword =>
        assert FieldError(f) in m <==> FieldError(f) in m2;
      case ConfirmPassword =>
    }
    if |m| == 0 {
      forall f ensures FieldMessage(d, f).None? {
        assert FieldError(f) !in m;
      }
    } else {
      var k :| k in m;
      assert FieldMessage(d, k.field).Some?;
    }
  }

  class SecurityForm {
    var isChangingPassword: bool
    var passwordData: PasswordData
    var twoFactorEnabled: bool
    var isUpdating: bool
    var errors: map<ErrorKey, string>
    var showPasswords: Visibility

    /** `securitySettings?.twoFactorEnabled || false`; everything else starts empty and hidden. */
    constructor (twoFactorSetting: Option<bool>)
      ensures twoFactorEnabled == twoFactorSetting.GetOr(false)
      ensures !isChangingPassword && passwordData == BlankPasswords && !isUpdating && errors == map[]
      ensures showPasswords == Visibility(false, false, false)
    {
      isChangingPassword := false;
      passwordData := BlankPasswords;
      twoFactorEnabled := twoFactorSetting.GetOr(false);
      isUpdating := false;
      errors := map[];
      showPasswords := Visibility(false, false, false);
    }

    /** The "Change Password" button opens the form. */
    method StartChangingPassword()
      modifies this
      ensures isChangingPassword
      ensures passwordData == old(passwordData) && errors == old(errors) && twoFactorEnabled == old(twoFactorEnabled)
      ensures isUpdating == old(isUpdating) && showPasswords == old(showPasswords)
    {
      isChangingPassword := true;
    }

    /** The form's Cancel button: closes it, empties the inputs and drops every error. */
    method CancelPasswordChange()
      modifies this
      ensures !isChangingPassword && passwordData == BlankPasswords && errors == map[]
      ensures twoFactorEnabled == old(twoFactorEnabled) && isUpdating == old(isUpdating) && showPasswords == old(showPasswords)
    {
      isChangingPassword := false;
      passwordData := BlankPasswords;
      errors := map[];
    }

    /** handlePasswordChange: sets the input and blanks its error if one is shown. */
    method PasswordChange(f: PasswordField, v: string)
      modifies this
      ensures passwordData == With(old(passwordData), f, v)
      ensures var k := FieldError(f);
        errors == if k in old(errors) && old(errors)[k] != "" then old(errors)[k := ""] else old(errors)
      ensures isChangingPassword == old(isChangingPassword) && twoFactorEnabled == old(twoFactorEnabled)
      ensures isUpdating == old(isUpdating) && showPasswords == old(showPasswords)
    {
      passwordData := With(passwordData, f, v);
      var k := FieldError(f);
      if k in errors && errors[k] != "" {
        errors := errors[k := ""];
      }
    }

    /**
     * validatePassword: the errors object is rebuilt from scratch, one
     * check after the other, and the form passes when it stays empty.
     */
    method ValidatePassword() returns (ok: bool)
      modifies this
      ensures forall f :: FieldError(f) in errors <==> FieldMessage(passwordData, f).Some?
      ensures forall f | FieldError(f) in errors :: errors[FieldError(f)] == FieldMessage(passwordData, f).value
      ensures SubmitError !in errors
      ensures ok <==> NoFieldMessage(passwordData)
      ensures passwordData == old(passwordData) && isChangingPassword == old(isChangingPassword)
      ensures twoFactorEnabled == old(twoFactorEnabled) && isUpdating == old(isUpdating) && showPasswords == old(showPasswords)
    {
      var newErrors := CollectPasswordErrors(passwordData);
      errors := newErrors;
      ok := |newErrors| == 0;
    }

    /**
     * handlePasswordSubmit: an invalid form goes no further; otherwise the
     * data is sent, and on success the inputs are cleared and the form
     * closed, while a failure replaces the errors with the submit message.
     */
    method PasswordSubmit(saveSucceeds: bool) returns (sent: Option<SecurityUpdate>)
      modifies this
      ensures sent.Some? <==> old(NoFieldMessage(passwordData))
      ensures sent.Some? ==> sent.value == PasswordUpdate(old(passwordData))
      ensures sent.Some? && saveSucceeds ==> passwordData == BlankPasswords && !isChangingPassword
      ensures sent.Some? && !saveSucceeds ==>
                passwordData == old(passwordData) && isChangingPassword == old(isChangingPassword)
                && errors == map[SubmitError := SubmitFailed]
      ensures sent.None? ==> passwordData == old(passwordData) && isChangingPassword == old(isChangingPassword)
                             && (forall f :: FieldError(f) in errors <==> FieldMessage(passwordData, f).Some?)
                             && (forall f | FieldError(f) in errors :: errors[FieldError(f)] == FieldMessage(passwordData, f).value)
                             && SubmitError !in errors
      ensures sent.Some? && saveSucceeds ==> (forall f :: FieldError(f) !in errors) && SubmitError !in errors
      ensures isUpdating == (old(isUpdating) && sent.None?)
      ensures twoFactorEnabled == old(twoFactorEnabled) && showPasswords == old(showPasswords)
    {
      var ok := ValidatePassword();
      if !ok {
        return None;
      }
      isUpdating := true;
      sent := Some(PasswordUpdate(passwordData));
      if saveSucceeds {
        passwordData := BlankPasswords;
        isChangingPassword := false;
      } else {
        errors := map[SubmitError := SubmitFailed];
      }
      isUpdating := false;
    }

    /** handleTwoFactorToggle: the negated flag is sent and adopted only when onSave succeeds. */
    method TwoFactorToggle(saveSucceeds: bool) returns (sent: SecurityUpdate)
      modifies this
      ensures sent == TwoFactorUpdate(!old(twoFactorEnabled))
      ensures twoFactorEnabled == (if saveSucceeds then !old(twoFactorEnabled) else old(twoFactorEnabled))
      ensures !isUpdating
      ensures passwordData == old(passwordData) && errors == old(errors)
      ensures isChangingPassword == old(isChangingPassword) && showPasswords == old(showPasswords)
    {
      isUpdating := true;
      var newValue := !twoFactorEnabled;
      sent := TwoFactorUpdate(newValue);
      if saveSucceeds {
        twoFactorEnabled := newValue;
      }
      isUpdating := false;
    }

    method TogglePasswordVisibility(f: PasswordField)
      modifies this
      ensures showPasswords == ToggleVisibility(old(showPasswords), f)
      ensures passwordData == old(passwordData) && errors == old(errors) && twoFactorEnabled == old(twoFactorEnabled)
      ensures isChangingPassword == old(isChangingPassword) && isUpdating == old(isUpdating)
    {
      showPasswords := ToggleVisibility(showPasswords, f);
    }
  }
}
