/**
 * The duration formatter that the alert-history card, the statistics
 * panel, the recent-response card and the response statistics each define
 * for themselves (`formatDuration` / `formatResponseTime`): a count of
 * minutes below 60 prints as `${minutes}m`, anything else as
 * `${hours}h ${minutes % 60}m` with `hours = Math.floor(minutes / 60)`.
 */
module DurationText {
  import opened Common
  import opened JsText

  function FormatDuration(minutes: int): (s: string)
    ensures minutes < 60 ==> s == IntStr(minutes) + "m"
    ensures minutes >= 60 ==> exists h: nat, m: nat :: m < 60 && h >= 1 && h * 60 + m == minutes
                                && s == NatStr(h) + "h " + NatStr(m) + "m"
  {
    if minutes < 60 then IntStr(minutes) + "m"
    else
      var hours := minutes / 60;
      // JavaScript `%` agrees with Dafny's on a non-negative dividend
      var mins := JsRem(minutes, 60);
      NatStr(hours) + "h " + NatStr(mins) + "m"
  }

  /** Reads a formatted duration back into minutes. */
  function ParseDuration(s: string): (r: Option<int>)
  {
    if |s| == 0 || s[|s| - 1] != 'm' then None else ParseAmount(s[..|s| - 1])
  }

  /** The part before the final 'm': a plain number, or hours, 'h', a blank and minutes. */
  function ParseAmount(body: string): Option<int> {
    match IndexOf(body, 'h')
    case None => ParseInt(body)
    case Some(k) => ParseHours(body[..k], body[k + 1..])
  }

  function ParseHours(hs: string, rest: string): Option<int> {
    if |hs| >= 1 && AllDigits(hs) && |rest| >= 2 && rest[0] == ' ' && AllDigits(rest[1..]) then
      Some(60 * DigitsValue(hs) + DigitsValue(rest[1..]))
    else None
  }

  lemma ParseShort(minutes: int)
    ensures ParseDuration(IntStr(minutes) + "m") == Some(minutes)
  {
    var s := IntStr(minutes) + "m";
    assert s[..|s| - 1] == IntStr(minutes);
    assert 'h' !in IntStr(minutes);
    IndexOfFirst(IntStr(minutes), 'h');
    ParseIntStr(minutes);
  }

  /** Where the pieces of `${h}h ${m}m` sit. */
  lemma LongShape(hs: string, ms: string)
    ensures var s := hs + "h " + ms + "m";
      var body := s[..|s| - 1];
      s[|s| - 1] == 'm' && body == hs + ("h " + ms) && body[..|hs|] == hs
      && body[|hs| + 1..] == " " + ms && (" " + ms)[1..] == ms
  {
    var s := hs + "h " + ms + "m";
    assert s[..|s| - 1] == hs + ("h " + ms);
  }

  lemma ParseLong(hs: string, ms: string)
    requires |hs| >= 1 && AllDigits(hs) && |ms| >= 1 && AllDigits(ms)
    ensures ParseDuration(hs + "h " + ms + "m") == Some(60 * DigitsValue(hs) + DigitsValue(ms))
  {
    LongShape(hs, ms);
    assert 'h' !in hs by {
      forall i | 0 <= i < |hs| ensures hs[i] != 'h' { assert IsDigit(hs[i]); }
    }
    IndexOfConcat(hs, "h " + ms, 'h');
    ParseHoursBlank(hs, ms);
  }

  lemma ParseHoursBlank(hs: string, ms: string)
    requires |hs| >= 1 && AllDigits(hs) && |ms| >= 1 && AllDigits(ms)
    ensures ParseHours(hs, " " + ms) == Some(60 * DigitsValue(hs) + DigitsValue(ms))
  {
    assert (" " + ms)[1..] == ms;
  }

  /** The formatter loses nothing: every duration reads back as itself. */
  lemma FormatDurationRoundTrip(minutes: int)
    ensures ParseDuration(FormatDuration(minutes)) == Some(minutes)
  {
    if minutes < 60 {
      ParseShort(minutes);
    } else {
      var h, m := minutes / 60, minutes % 60;
      ParseLong(NatStr(h), NatStr(m));
      NatStrValue(h);
      NatStrValue(m);
    }
  }

  /** Two durations that print alike are equal. */
  lemma FormatDurationInjective(a: int, b: int)
    requires FormatDuration(a) == FormatDuration(b)
    ensures a == b
  {
    FormatDurationRoundTrip(a);
    FormatDurationRoundTrip(b);
  }
}
