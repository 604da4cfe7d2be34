/**
 * The victim's live alert panel
 * (src/pages/victim-dashboard/components/AlertStatusPanel.jsx): the
 * elapsed-time clock fed by a one-second interval, its `m:ss` text, the
 * status colours and label, and the fallbacks for missing alert fields.
 *
 * Times are integer milliseconds. A missing timestamp makes the clock
 * `NaN` in the source; here that is an elapsed time of `None`.
 */
module AlertStatusPanel {
  import opened Common
  import opened JsText

  /**
   * The alert record the dashboard passes in. Every field is optional
   * because a record can reach the panel with only some of them set.
   */
  datatype ActiveAlert = ActiveAlert(
    id: Option<string>,
    alertType: Option<string>,
    timestamp: Option<int>,
    status: Option<string>,
    location: Option<string>,
    volunteersNotified: Option<int>)

  datatype VolunteerResponse = VolunteerResponse(id: string, volunteerName: string, distance: int, eta: int, phone: string)

  /** formatElapsedTime: floored minutes, a colon, and the remainder padded to two characters. */
  function FormatElapsed(seconds: int): (r: string)
    ensures seconds >= 0 ==> ParseElapsed(r) == Some(seconds)
  {
    assert seconds >= 0 ==> ParseElapsed(IntStr(seconds / 60) + ":" + PadStart2(IntStr(JsRem(seconds, 60)))) == Some(seconds) by {
      if seconds >= 0 {
        ElapsedTextRoundTrip(seconds);
      }
    }
    IntStr(seconds / 60) + ":" + PadStart2(IntStr(JsRem(seconds, 60)))
  }

  /** Reading an `m:ss` text back into seconds. */
  function ParseElapsed(t: string): (r: Option<int>) {
    match IndexOf(t, ':')
    case None => None
    case Some(i) =>
      var m := ParseInt(t[..i]);
      var rest := t[i + 1..];
      if m.Some? && |rest| == 2 && AllDigits(rest) then Some(60 * m.value + DigitsValue(rest)) else None
  }

  /** Two padded digits read back as the number they came from. */
  lemma PaddedValue(n: nat)
    requires n < 60
    ensures var p := PadStart2(NatStr(n)); |p| == 2 && AllDigits(p) && DigitsValue(p) == n
  {
    NatStrValue(n);
    var p := PadStart2(NatStr(n));
    if n < 10 {
      assert p == "0" + NatStr(n);
      assert p[..1] == "0";
    } else {
      assert p == NatStr(n);
    }
  }

  /** A minute count, a colon and two digits read back as minutes times 60 plus the digits. */
  lemma ParseElapsedParts(mins: nat, ps: string)
    requires |ps| == 2 && AllDigits(ps)
    ensures ParseElapsed(NatStr(mins) + ":" + ps) == Some(60 * mins + DigitsValue(ps))
  {
    var ms := NatStr(mins);
    var t := ms + ":" + ps;
    assert ':' !in ms by {
      NatStrValue(mins);
      forall k | 0 <= k < |ms|
        ensures ms[k] != ':'
      {
        assert IsDigit(ms[k]);
      }
    }
    IndexOfConcat(ms, ":" + ps, ':');
    assert t == ms + (":" + ps);
    assert t[..|ms|] == ms;
    assert t[|ms| + 1..] == ps;
    ParseIntStr(mins);
  }

  /** For a non-negative count the clock text reads back as the count: minutes times 60 plus the two-digit seconds. */
  lemma ElapsedTextRoundTrip(seconds: int)
    requires seconds >= 0
    ensures ParseElapsed(IntStr(seconds / 60) + ":" + PadStart2(IntStr(JsRem(seconds, 60)))) == Some(seconds)
  {
    var mins := seconds / 60;
    var secs := seconds % 60;
    assert JsRem(seconds, 60) == secs;
    assert IntStr(mins) == NatStr(mins);
    assert IntStr(secs) == NatStr(secs);
    PaddedValue(secs);
    ParseElapsedParts(mins, PadStart2(NatStr(secs)));
  }

  /** A clock that has run behind the alert's time shows a negative minute and a negative remainder. */
  lemma NegativeElapsed()
    ensures FormatElapsed(-5) == "-1:-5"
  {
    assert IntStr(-1) == "-1" by { assert NatStr(1) == "1"; }
    assert IntStr(-5) == "-5" by { assert NatStr(5) == "5"; }
  }

  /** One firing of the interval: whole seconds since the alert's time, floored; `None` when the alert has no time. */
  function ElapsedSeconds(timestamp: Option<int>, now: int): (r: Option<int>)
    ensures r.Some? <==> timestamp.Some?
    ensures r.Some? ==> 1000 * r.value <= now - timestamp.value < 1000 * r.value + 1000
  {
    if timestamp.Some? then Some((now - timestamp.value) / 1000) else None
  }

  /** The clock text; `NaN` propagates through both halves. */
  function ClockText(elapsed: Option<int>): (r: string)
    ensures elapsed.None? ==> r == "NaN:NaN"
    ensures elapsed.Some? && elapsed.value >= 0 ==> ParseElapsed(r) == elapsed
  {
    if elapsed.Some? then
      FormatElapsed(elapsed.value)
    else "NaN:NaN"
  }

  function StatusColor(status: Option<string>): (r: string)
    ensures status !in {Some("pending"), Some("accepted"), Some("en_route"), Some("arrived")} ==> r == "text-muted-foreground"
  {
    match status
    case Some("pending") => "text-warning"
    case Some("accepted") => "text-success"
    case Some("en_route") => "text-accent"
    case Some("arrived") => "text-primary"
    case _ => "text-muted-foreground"
  }

  function StatusBackground(status: Option<string>): (r: string)
    ensures status !in {Some("pending"), Some("accepted"), Some("en_route"), Some("arrived")} ==> r == "bg-muted/10"
  {
    match status
    case Some("pending") => "bg-warning/10"
    case Some("accepted") => "bg-success/10"
    case Some("en_route") => "bg-accent/10"
    case Some("arrived") => "bg-primary/10"
    case _ => "bg-muted/10"
  }

  /** The four known statuses each get their own colour and background; everything else is muted in both. */
  lemma StatusStylesDistinct(a: Option<string>, b: Option<string>)
    requires a in {Some("pending"), Some("accepted"), Some("en_route"), Some("arrived")}
    ensures StatusColor(a) != "text-muted-foreground" && StatusBackground(a) != "bg-muted/10"
    ensures StatusColor(a) == StatusColor(b) <==> a == b
    ensures StatusBackground(a) == StatusBackground(b) <==> a == b
  {
  }

  /** The status label: 'En Route' for 'en_route', the status itself otherwise (nothing when missing). */
  function StatusLabel(status: Option<string>): (r: string)
    ensures status == Some("en_route") ==> r == "En Route"
    ensures status.Some? && status.value != "en_route" ==> r == status.value
    ensures status.None? ==> r == ""
  {
    match status
    case Some("en_route") => "En Route"
    case Some(s) => s
    case None => ""
  }

  /** ASCII `toUpperCase()` of one character. */
  function UpperChar(c: char): (r: char)
    ensures !IsLower(r)
    ensures IsLower(c) ==> r as int == c as int - 32
    ensures !IsLower(c) ==> r == c
  {
    if IsLower(c) then (c as int - 32) as char else c
  }

  /** The heading: the type with its first letter capitalised and " Emergency", when there is a type. */
  function TypeHeading(alertType: Option<string>): (r: Option<string>)
    ensures r.Some? <==> alertType.Some? && alertType.value != ""
    ensures r.Some? ==>
              |r.value| == |alertType.value| + 10
              && r.value[0] == UpperChar(alertType.value[0])
              && r.value[1..|alertType.value|] == alertType.value[1..]
              && r.value[|alertType.value|..] == " Emergency"
  {
    if alertType.Some? && alertType.value != "" then
      Some([UpperChar(alertType.value[0])] + alertType.value[1..] + " Emergency")
    else None
  }

  /** What the panel shows for an active alert. */
  datatype PanelView = PanelView(
    heading: Option<string>,
    clock: string,
    statusLabel: string,
    locationText: string,
    volunteersNotified: int,
    responseCount: Option<nat>)

  function View(a: ActiveAlert, elapsed: Option<int>, responses: seq<VolunteerResponse>): (v: PanelView)
    ensures v.heading == TypeHeading(a.alertType) && v.clock == ClockText(elapsed) && v.statusLabel == StatusLabel(a.status)
    ensures a.location.Some? && a.location.value != "" ==> v.locationText == a.location.value
    ensures a.location.None? || a.location.value == "" ==> v.locationText == "Current location"
    ensures v.volunteersNotified == (if TruthyInt(a.volunteersNotified) then a.volunteersNotified.value else 0)
    ensures v.responseCount.Some? <==> |responses| > 0
    ensures v.responseCount.Some? ==> v.responseCount.value == |responses|
  {
    PanelView(
      TypeHeading(a.alertType),
      ClockText(elapsed),
      StatusLabel(a.status),
      TextOr(a.location, "Current location"),
      IntOr(a.volunteersNotified, 0),
      if |responses| > 0 then Some(|responses|) else None)
  }

  class Panel {
    var activeAlert: Option<ActiveAlert>
    var elapsedTime: Option<int>

    constructor (activeAlert: Option<ActiveAlert>)
      ensures this.activeAlert == activeAlert && elapsedTime == Some(0)
    {
      this.activeAlert := activeAlert;
      elapsedTime := Some(0);
    }

    /** The dashboard passes a different alert (or none). */
    method SetAlert(a: Option<ActiveAlert>)
      modifies this
      ensures activeAlert == a && elapsedTime == old(elapsedTime)
    {
      activeAlert := a;
    }

    /** One firing of the interval, which runs only while there is an alert. */
    method Tick(now: int)
      modifies this
      ensures activeAlert == old(activeAlert)
      ensures activeAlert.Some? ==> elapsedTime == ElapsedSeconds(activeAlert.value.timestamp, now)
      ensures activeAlert.None? ==> elapsedTime == old(elapsedTime)
    {
      if activeAlert.Some? {
        elapsedTime := ElapsedSeconds(activeAlert.value.timestamp, now);
      }
    }

    /** The cancel button hands the alert's id to `onCancelAlert`; without an alert the button is not shown. */
    method CancelClick() returns (forwarded: Option<Option<string>>)
      ensures forwarded.Some? <==> activeAlert.Some?
      ensures activeAlert.Some? ==> forwarded.value == activeAlert.value.id
    {
      if activeAlert.Some? {
        forwarded := Some(activeAlert.value.id);
      } else {
        forwarded := None;
      }
    }
  }
}
