/**
 * The incoming-alert overlay shown to volunteers
 * (src/components/ui/AlertNotificationOverlay.jsx): the auto-close
 * countdown, the processing flag around the respond and decline callbacks,
 * and the texts and colours it derives from the alert.
 *
 * `timeRemaining` is held in milliseconds, so `autoCloseDelay / 1000` and
 * the one-second steps are exact whatever the delay; the display of the
 * remaining seconds and the progress bar are not modelled. Each firing of
 * the one-second interval is one call of `Tick`.
 */
module AlertOverlay {
  import opened Common
  import opened JsText

  /** The alert fields the overlay reads; the distance is in tenths of a metre. */
  datatype OverlayAlert = OverlayAlert(
    location: Option<string>,
    distance: Option<int>,
    urgency: Option<string>,
    alertType: Option<string>,
    description: Option<string>,
    timestamp: Option<int>)

  /** One second of the interval: at one second or less the overlay closes and shows 0; otherwise one second less. */
  function TickStep(t: int): (r: (int, bool))
    ensures r.1 <==> t <= 1000
    ensures r.1 ==> r.0 == 0
    ensures !r.1 ==> r.0 == t - 1000 && r.0 > 0
  {
    if t <= 1000 then (0, true) else (t - 1000, false)
  }

  /** The time left after `k` ticks. */
  function Remaining(t: int, k: nat): int
    decreases k
  {
    if k == 0 then t else Remaining(TickStep(t).0, k - 1)
  }

  /** How many of `k` ticks call `onClose`. */
  function Closes(t: int, k: nat): nat
    decreases k
  {
    if k == 0 then 0 else (if TickStep(t).1 then 1 else 0) + Closes(TickStep(t).0, k - 1)
  }

  /** The number of ticks to the first close: the delay in whole seconds, rounded up, and at least one. */
  function TicksToClose(t: int): (n: nat)
    ensures n >= 1
    decreases if t > 0 then t else 0
  {
    if t <= 1000 then 1 else 1 + TicksToClose(t - 1000)
  }

  /** For a positive delay, the first close comes after the delay in seconds rounded up. */
  lemma {:induction false} TicksToCloseIsCeiling(t: int)
    requires t >= 1
    ensures TicksToClose(t) == (t + 999) / 1000
  {
    if t > 1000 {
      TicksToCloseIsCeiling(t - 1000);
      assert (t + 999) / 1000 == (t - 1000 + 999) / 1000 + 1;
    }
  }

  /**
   * The overlay stays open for `TicksToClose(t) - 1` ticks with time
   * left, `onClose` fires on tick `TicksToClose(t)`, and every later tick
   * while it is still shown fires it again; the time left never goes below
   * zero.
   */
  lemma {:induction false} CloseSchedule(t: int, k: nat)
    ensures Closes(t, k) == (if k < TicksToClose(t) then 0 else k - TicksToClose(t) + 1)
    ensures Remaining(t, k) >= 0 || k == 0
    ensures k < TicksToClose(t) ==> Remaining(t, k) == t - 1000 * k
    ensures k >= TicksToClose(t) ==> Remaining(t, k) == 0
  {
    if k > 0 {
      if t <= 1000 {
        ZeroKeepsClosing(k - 1);
      } else {
        CloseSchedule(t - 1000, k - 1);
      }
    }
  }

  /** At zero every tick closes again. */
  lemma {:induction false} ZeroKeepsClosing(k: nat)
    ensures Closes(0, k) == k && Remaining(0, k) == 0
  {
    if k > 0 {
      ZeroKeepsClosing(k - 1);
    }
  }

  /** getDistanceText for a distance under 1000 m: the rounded metres and "m away". The kilometre branch is `None`. */
  function DistanceText(tenths: int): (r: Option<string>)
    ensures r.Some? <==> tenths < 10000
  {
    if tenths < 10000 then Some(IntStr(RoundTenths(tenths)) + "m away") else None
  }

  /** The metre text reads back as a whole number within half a metre of the distance. */
  lemma DistanceTextClose(tenths: int)
    requires tenths < 10000
    ensures var s := DistanceText(tenths).value;
      |s| > 6 && s[|s| - 6..] == "m away" && ParseInt(s[..|s| - 6]).Some?
      && 10 * ParseInt(s[..|s| - 6]).value - 5 <= tenths < 10 * ParseInt(s[..|s| - 6]).value + 5
  {
    var r := RoundTenths(tenths);
    var s := IntStr(r) + "m away";
    assert s[..|s| - 6] == IntStr(r);
    ParseIntStr(r);
  }

  function UrgencyColor(urgency: Option<string>): (r: string)
    ensures urgency == Some("critical") ==> r == "text-primary"
    ensures urgency == Some("high") ==> r == "text-warning"
    ensures urgency != Some("critical") && urgency != Some("high") ==> r == "text-muted-foreground"
  {
    match urgency
    case Some("critical") => "text-primary"
    case Some("high") => "text-warning"
    case _ => "text-muted-foreground"
  }

  function UrgencyBackground(urgency: Option<string>): (r: string)
    ensures urgency == Some("critical") ==> r == "bg-primary/10"
    ensures urgency == Some("high") ==> r == "bg-warning/10"
    ensures urgency != Some("critical") && urgency != Some("high") ==> r == "bg-muted/10"
  {
    match urgency
    case Some("critical") => "bg-primary/10"
    case Some("high") => "bg-warning/10"
    case _ => "bg-muted/10"
  }

  /** Colour and background are muted together: both single out exactly 'critical' and 'high'. */
  lemma UrgencyStylesAgree(urgency: Option<string>)
    ensures UrgencyColor(urgency) == "text-muted-foreground" <==> UrgencyBackground(urgency) == "bg-muted/10"
  {
  }

  /**
   * What the overlay shows of an alert. `{alert?.distance && …}` renders the
   * number itself when the distance is 0, so a bare "0" then stands where
   * the distance would be.
   */
  datatype OverlayView = OverlayView(
    locationText: string,
    distanceText: Option<Option<string>>,
    bareZero: bool,
    urgencyText: string,
    typeText: Option<string>,
    descriptionText: Option<string>,
    showsClock: bool)

  function View(a: OverlayAlert): (v: OverlayView)
    ensures a.location.Some? && a.location.value != "" ==> v.locationText == a.location.value
    ensures a.location.None? || a.location.value == "" ==> v.locationText == "Location unavailable"
    ensures v.distanceText.Some? <==> TruthyInt(a.distance)
    ensures TruthyInt(a.distance) ==> v.distanceText.value == DistanceText(a.distance.value)
    ensures v.bareZero <==> a.distance == Some(0)
    ensures v.urgencyText != ""
    ensures a.urgency.Some? && a.urgency.value != "" ==> v.urgencyText == a.urgency.value
    ensures v.typeText.Some? <==> a.alertType.Some? && a.alertType.value != ""
    ensures v.descriptionText.Some? <==> a.description.Some? && a.description.value != ""
    ensures v.showsClock <==> TruthyInt(a.timestamp)
  {
    OverlayView(
      TextOr(a.location, "Location unavailable"),
      if TruthyInt(a.distance) then Some(DistanceText(a.distance.value)) else None,
      a.distance == Some(0),
      TextOr(a.urgency, "standard"),
      if a.alertType.Some? && a.alertType.value != "" then a.alertType else None,
      if a.description.Some? && a.description.value != "" then a.description else None,
      TruthyInt(a.timestamp))
  }

  class Overlay {
    var autoCloseDelay: int
    var alert: Option<OverlayAlert>
    var isVisible: bool
    var timeRemaining: int
    var isProcessing: bool

    /** The overlay counts down only while it is shown with an alert. */
    predicate Running()
      reads this
    {
      isVisible && alert.Some?
    }

    constructor (autoCloseDelay: int, alert: Option<OverlayAlert>, isVisible: bool)
      ensures this.autoCloseDelay == autoCloseDelay && this.alert == alert && this.isVisible == isVisible
      ensures timeRemaining == autoCloseDelay && !isProcessing
    {
      this.autoCloseDelay := autoCloseDelay;
      this.alert := alert;
      this.isVisible := isVisible;
      timeRemaining := autoCloseDelay;
      isProcessing := false;
    }

    /**
     * New props from the parent. The reset effect runs when `isVisible` or
     * `autoCloseDelay` changed and the overlay is visible: it restarts the
     * countdown at the full delay. A new alert on an overlay that stays
     * visible with the same delay keeps the running countdown.
     */
    method Show(alert: Option<OverlayAlert>, isVisible: bool, autoCloseDelay: int)
      modifies this
      ensures this.alert == alert && this.isVisible == isVisible && this.autoCloseDelay == autoCloseDelay
      ensures isProcessing == old(isProcessing)
      ensures isVisible && (!old(this.isVisible) || autoCloseDelay != old(this.autoCloseDelay)) ==>
                timeRemaining == autoCloseDelay
      ensures !isVisible || (old(this.isVisible) && autoCloseDelay == old(this.autoCloseDelay)) ==>
                timeRemaining == old(timeRemaining)
    {
      var changed := isVisible != this.isVisible || autoCloseDelay != this.autoCloseDelay;
      this.alert := alert;
      this.isVisible := isVisible;
      this.autoCloseDelay := autoCloseDelay;
      if isVisible && changed {
        timeRemaining := autoCloseDelay;
      }
    }

    /** One second of the auto-close interval; `closed` is whether it called `onClose`. */
    method Tick() returns (closed: bool)
      modifies this
      ensures Running() ==> (timeRemaining, closed) == TickStep(old(timeRemaining))
      ensures !Running() ==> timeRemaining == old(timeRemaining) && !closed
      ensures alert == old(alert) && isVisible == old(isVisible) && isProcessing == old(isProcessing)
      ensures autoCloseDelay == old(autoCloseDelay)
    {
      closed := false;
      if !isVisible || alert.None? {
        return;
      }
      if timeRemaining <= 1000 {
        closed := true;
        timeRemaining := 0;
      } else {
        timeRemaining := timeRemaining - 1000;
      }
    }

    /** handleAccept up to the awaited callback: processing, and the alert handed to `onAccept`. */
    method BeginAccept() returns (forwarded: Option<OverlayAlert>)
      modifies this
      ensures isProcessing && forwarded == alert
      ensures alert == old(alert) && isVisible == old(isVisible) && timeRemaining == old(timeRemaining)
      ensures autoCloseDelay == old(autoCloseDelay)
    {
      isProcessing := true;
      forwarded := alert;
    }

    /** handleReject up to the awaited callback. */
    method BeginReject() returns (forwarded: Option<OverlayAlert>)
      modifies this
      ensures isProcessing && forwarded == alert
      ensures alert == old(alert) && isVisible == old(isVisible) && timeRemaining == old(timeRemaining)
      ensures autoCloseDelay == old(autoCloseDelay)
    {
      isProcessing := true;
      forwarded := alert;
    }

    /**
     * The `finally` after either callback: processing ends whether the
     * callback resolved or threw, and a failure is passed on to the caller.
     */
    method CallbackSettled(failed: bool) returns (raised: bool)
      modifies this
      ensures !isProcessing && raised == failed
      ensures alert == old(alert) && isVisible == old(isVisible) && timeRemaining == old(timeRemaining)
      ensures autoCloseDelay == old(autoCloseDelay)
    {
      isProcessing := false;
      raised := failed;
    }

    /** The close and decline buttons are disabled while processing: a click then does nothing. */
    method CloseClick() returns (closed: bool)
      ensures closed <==> !isProcessing
    {
      closed := !isProcessing;
    }
  }

  /**
   * Shown with a 30-second delay and left alone, the overlay calls
   * `onClose` for the first time on the thirtieth tick.
   */
  method DefaultDelayClosesOnThirtiethTick(a: OverlayAlert) returns (firstClose: nat)
    ensures firstClose == 30
  {
    var o := new Overlay(30000, Some(a), true);
    firstClose := 0;
    var k: nat := 0;
    TicksToCloseIsCeiling(30000);
    while firstClose == 0
      invariant o.Running() && o.autoCloseDelay == 30000
      invariant k <= 30 && o.timeRemaining == Remaining(30000, k)
      invariant firstClose == 0 ==> k < 30
      invariant firstClose != 0 ==> firstClose == k == 30
      decreases 30 - k
    {
      CloseSchedule(30000, k);
      CloseSchedule(30000, k + 1);
      var closed := o.Tick();
      k := k + 1;
      if closed {
        firstClose := k;
      }
    }
  }
}
