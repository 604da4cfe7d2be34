/**
 * The e-mail and password checks the sign-in and registration forms share
 * (src/pages/login-register/components/LoginForm.jsx and RegisterForm.jsx
 * write them out identically), and the messages both forms show for a
 * failed auth call.
 */
module CredentialRules {
  import opened Common
  import opened JsText
  import opened Patterns

  const EmailRequired := "Email is required"
  const EmailInvalid := "Please enter a valid email address"
  const PasswordRequired := "Password is required"
  const PasswordTooShort := "Password must be at least 6 characters"
  const ConnectionFailed := "Cannot connect to authentication service. Your Supabase project may be paused or inactive. Please check your Supabase dashboard and resume your project if needed."
  const Unexpected := "An unexpected error occurred. Please try again."

  /** The e-mail check: required after trimming, then the unanchored address pattern on the raw text. */
  function EmailMessage(email: string): (r: Option<string>)
    ensures r.None? <==> EmailValid(email)
    ensures r == Some(EmailRequired) <==> IsBlank(email)
  {
    if IsBlank(email) then
      assert !EmailValid(email) by {
        if EmailValid(email) { EmailValidNotBlank(email); }
      }
      Some(EmailRequired)
    else if !EmailValid(email) then Some(EmailInvalid)
    else None
  }

  /** The password check: required after trimming, then at least six characters counting the blanks. */
  function PasswordMessage(password: string): (r: Option<string>)
    ensures r.None? <==> !IsBlank(password) && |password| >= 6
  {
    if IsBlank(password) then Some(PasswordRequired)
    else if |password| < 6 then Some(PasswordTooShort)
    else None
  }

  /** The length counts the blanks around the text: one letter and five spaces pass. */
  lemma PaddedPasswordPasses()
    ensures PasswordMessage("a     ").None?
  {
    assert !IsSpace("a     "[0]);
  }

  /**
   * The `general` message for a failed auth call that is not the form's
   * known case: the connection text for 'Failed to fetch', else the error's
   * own message, else the form's fallback.
   */
  function GeneralMessage(message: Option<string>, fallback: string): (r: string)
    ensures message.Some? && Includes(message.value, "Failed to fetch") ==> r == ConnectionFailed
    ensures message.Some? && !Includes(message.value, "Failed to fetch") && message.value != "" ==> r == message.value
    ensures message.None? || message.value == "" ==> r == fallback
  {
    if message.Some? && Includes(message.value, "Failed to fetch") then ConnectionFailed
    else
      TextOr(message, fallback)
  }
}
