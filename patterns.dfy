/**
 * The three regular expressions the forms validate with, each given as the
 * set of strings the JavaScript regex engine accepts (`RegExp.prototype.test`):
 *
 *   phone     `^\+?[\d\s\-\(\)]{10,}$`
 *   email     `\S+@\S+\.\S+`              (unanchored)
 *   password  `(?=.*[a-z])(?=.*[A-Z])(?=.*\d)`   (unanchored, `.` stops at line ends)
 */
module Patterns {
  import opened JsText

  // ---------------------------------------------------------------
  // Phone
  // ---------------------------------------------------------------

  /** `[\d\s\-\(\)]`. */
  predicate PhoneChar(c: char) {
    IsDigit(c) || IsSpace(c) || c == '-' || c == '(' || c == ')'
  }

  /** `[\d\s\-\(\)]{10,}` matching a whole string. */
  predicate PhoneRun(t: string) {
    |t| >= 10 && forall i | 0 <= i < |t| :: PhoneChar(t[i])
  }

  /** The regex read literally: some split of the input into an optional '+' (`\+?`) and a run. */
  predicate PhoneRegex(s: string) {
    exists k | 0 <= k <= 1 :: k <= |s| && (k == 0 || s[0] == '+') && PhoneRun(s[k..])
  }

  /** Decides the phone regex by looking at the first character only. */
  function PhoneValid(s: string): (b: bool)
    ensures b <==> PhoneRegex(s)
  {
    if |s| > 0 && s[0] == '+' then
      assert PhoneRun(s[0..]) ==> PhoneChar(s[0]);
      PhoneRun(s[1..])
    else
      assert s[0..] == s;
      PhoneRun(s)
  }

  /** An accepted phone number has at least ten digits, blanks, dashes or parentheses after its '+'. */
  lemma PhoneValidLength(s: string)
    requires PhoneValid(s)
    ensures |s| >= 10
    ensures forall i | 1 <= i < |s| :: PhoneChar(s[i])
  {
    if s[0] == '+' {
      forall i | 1 <= i < |s| ensures PhoneChar(s[i]) {
        assert s[i] == s[1..][i - 1];
      }
    }
  }

  // ---------------------------------------------------------------
  // Email
  // ---------------------------------------------------------------

  /** No whitespace in `s[a..b)`. */
  predicate NoSpaceIn(s: string, a: int, b: int)
    requires 0 <= a <= b <= |s|
  {
    forall m | a <= m < b :: !IsSpace(s[m])
  }

  /**
   * `\S+@\S+\.\S+` matches somewhere in `s`: an '@' at `p` with a non-blank
   * character before it, a '.' at `q` with at least one non-blank character
   * between them, and a non-blank character after the '.'.
   */
  predicate EmailAt(s: string, p: int, q: int) {
    1 <= p && p + 2 <= q && q + 1 < |s|
    && !IsSpace(s[p - 1]) && s[p] == '@' && NoSpaceIn(s, p + 1, q) && s[q] == '.' && !IsSpace(s[q + 1])
  }

  predicate EmailValid(s: string) {
    exists p, q | 0 <= p < q < |s| :: EmailAt(s, p, q)
  }

  /** A match needs an '@', a later '.', and at least five characters. */
  lemma EmailValidShape(s: string)
    requires EmailValid(s)
    ensures |s| >= 5
    ensures exists p, q | 0 <= p < q < |s| :: s[p] == '@' && s[q] == '.'
  {
    var p, q :| 0 <= p < q < |s| && EmailAt(s, p, q);
    assert s[p] == '@' && s[q] == '.';
  }

  /** The pattern is unanchored: text around a valid address does not make it invalid. */
  lemma EmailUnanchored(s: string, before: string, after: string)
    requires EmailValid(s)
    ensures EmailValid(before + s + after)
  {
    var p, q :| 0 <= p < q < |s| && EmailAt(s, p, q);
    var t := before + s + after;
    var o := |before|;
    assert forall m | 0 <= m < |s| :: t[o + m] == s[m];
    assert EmailAt(t, o + p, o + q);
  }

  /** An email the pattern accepts is never blank, so the required check only chooses the message. */
  lemma EmailValidNotBlank(s: string)
    requires EmailValid(s)
    ensures !IsBlank(s)
  {
    var p, q :| 0 <= p < q < |s| && EmailAt(s, p, q);
    assert s[p] == '@' && !IsSpace(s[p]);
  }

  /** A string with no '@' is never accepted. */
  lemma EmailNeedsAt(s: string)
    requires '@' !in s
    ensures !EmailValid(s)
  {
  }

  // ---------------------------------------------------------------
  // Password strength
  // ---------------------------------------------------------------

  datatype CharClass = Lower | Upper | Digit

  predicate InClass(c: char, k: CharClass) {
    match k
    case Lower => IsLower(c)
    case Upper => IsUpper(c)
    case Digit => IsDigit(c)
  }

  /** No line terminator in `s[a..b)`, so `.*` can cross it. */
  predicate NoBreak(s: string, a: int, b: int)
    requires 0 <= a <= b <= |s|
  {
    forall m | a <= m < b :: !IsLineTerminator(s[m])
  }

  /** `(?=.*[class])` succeeds at position `i`. */
  predicate LookaheadAt(s: string, i: int, k: CharClass)
    requires 0 <= i <= |s|
  {
    exists j | i <= j < |s| :: InClass(s[j], k) && NoBreak(s, i, j)
  }

  /** `/(?=.*[a-z])(?=.*[A-Z])(?=.*\d)/.test(s)`: all three look-aheads succeed at one position. */
  predicate StrongPassword(s: string) {
    exists i | 0 <= i <= |s| :: LookaheadAt(s, i, Lower) && LookaheadAt(s, i, Upper) && LookaheadAt(s, i, Digit)
  }

  predicate HasClass(s: string, k: CharClass) {
    exists j | 0 <= j < |s| :: InClass(s[j], k)
  }

  predicate SingleLine(s: string) {
    forall m | 0 <= m < |s| :: !IsLineTerminator(s[m])
  }

  /** On one line the pattern asks exactly for a lower-case letter, an upper-case letter and a digit somewhere. */
  lemma StrongPasswordSingleLine(s: string)
    requires SingleLine(s)
    ensures StrongPassword(s) <==> HasClass(s, Lower) && HasClass(s, Upper) && HasClass(s, Digit)
  {
    if HasClass(s, Lower) && HasClass(s, Upper) && HasClass(s, Digit) {
      assert LookaheadAt(s, 0, Lower) && LookaheadAt(s, 0, Upper) && LookaheadAt(s, 0, Digit);
    }
  }

  /** On any input, the pattern needs each of the three classes somewhere. */
  lemma StrongPasswordNeedsClasses(s: string)
    requires StrongPassword(s)
    ensures HasClass(s, Lower) && HasClass(s, Upper) && HasClass(s, Digit)
  {
  }

  /** A line break between the only letters and the only digit defeats the look-aheads. */
  lemma StrongPasswordLineBreak()
    ensures HasClass("aB\n1", Lower) && HasClass("aB\n1", Upper) && HasClass("aB\n1", Digit)
    ensures !StrongPassword("aB\n1")
  {
    var s := "aB\n1";
    assert InClass(s[0], Lower) && InClass(s[1], Upper) && InClass(s[3], Digit);
    assert IsLineTerminator(s[2]);
    forall i | 0 <= i <= |s| ensures !(LookaheadAt(s, i, Lower) && LookaheadAt(s, i, Digit)) {
    }
  }
}
