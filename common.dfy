/** Failure-compatible wrappers shared by every module of the model. */
module Common {

  /** A JavaScript value that may be absent (`undefined` / `null`). */
  datatype Option<+T> = None | Some(value: T) {
    function GetOr(default: T): T {
      match this
      case Some(v) => v
      case None => default
    }
  }

  /** The `{ data, error }` pair every service method resolves to: exactly one side is set. */
  datatype Result<+T, +E> = Ok(data: T) | Err(error: E)

  /** A JavaScript number that may be absent, read with `||`: absent and 0 are both falsy. */
  predicate TruthyInt(x: Option<int>) {
    x.Some? && x.value != 0
  }

  /** `x || d` on an optional number. */
  function IntOr(x: Option<int>, d: int): (r: int)
    ensures TruthyInt(x) ==> r == x.value
    ensures !TruthyInt(x) ==> r == d
  {
    if TruthyInt(x) then x.value else d
  }

  /** `x || d` on an optional string: absent and "" are both falsy. */
  function TextOr(x: Option<string>, d: string): (r: string)
    ensures x.Some? && x.value != "" ==> r == x.value
    ensures x.None? || x.value == "" ==> r == d
  {
    if x.Some? && x.value != "" then x.value else d
  }

  /** `x ?? d`: only absence selects the default. */
  function BoolOrDefault(x: Option<bool>, d: bool): (r: bool)
    ensures x.Some? ==> r == x.value
    ensures x.None? ==> r == d
  {
    if x.Some? then x.value else d
  }

  /** The quiet-hours / silent-hours record of the settings pages. */
  datatype QuietHours = QuietHours(enabled: bool, start: string, end: string)

  /** `{ start: '22:00', end: '08:00' }` with the switch off. */
  const DefaultQuietHours := QuietHours(false, "22:00", "08:00")

  /**
   * What an awaited auth call (`signIn`, `signUp`) ends in: `{ error }` with
   * its optional message, `{ data }` with or without a user, or a throw.
   */
  datatype AuthOutcome = AuthError(message: Option<string>) | AuthData(hasUser: bool) | AuthThrew
}
