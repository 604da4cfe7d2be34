/**
 * One open alert on the volunteer dashboard
 * (src/pages/volunteer-dashboard/components/ActiveAlertCard.jsx): its
 * "time ago" and distance texts, the type and urgency styles, the
 * fallbacks for missing fields, and the action the volunteer chose.
 *
 * Distances are tenths of a metre and times integer milliseconds. The
 * distance text is the same metre formatter as the alert-history card's,
 * so `AlertHistoryCard.FormatDistance` is reused.
 */
module ActiveAlertCard {
  import opened Common
  import opened JsText
  import AlertHistoryCard

  /** An open alert as the volunteer dashboard holds it. */
  datatype DashAlert = DashAlert(
    id: string,
    alertType: Option<string>,
    urgency: Option<string>,
    location: string,
    description: Option<string>,
    victimName: Option<string>,
    distance: int,
    timestamp: int,
    nearbyVolunteers: Option<int>)

  const MinuteMs := 60000
  const HourMs := 3600000

  /** getTimeAgo on the age in milliseconds. */
  function TimeAgo(diff: int): (r: string)
    ensures diff < MinuteMs ==> r == "Just now"
    ensures MinuteMs <= diff < HourMs ==>
              exists m :: r == IntStr(m) + "m ago" && 1 <= m < 60 && MinuteMs * m <= diff < MinuteMs * m + MinuteMs
    ensures diff >= HourMs ==>
              exists h :: r == IntStr(h) + "h ago" && h >= 1 && HourMs * h <= diff < HourMs * h + HourMs
  {
    var minutes := diff / MinuteMs;
    if minutes < 1 then "Just now"
    else if minutes < 60 then IntStr(minutes) + "m ago"
    else
      var hours := minutes / 60;
      assert HourMs * hours <= diff < HourMs * hours + HourMs by {
        assert MinuteMs * minutes <= diff < MinuteMs * minutes + MinuteMs;
        assert 60 * hours <= minutes < 60 * hours + 60;
      }
      IntStr(hours) + "h ago"
  }

  /** The count in a "time ago" text reads back. */
  lemma TimeAgoReadsBack(n: int, unit: string)
    requires unit == "m ago" || unit == "h ago"
    ensures var s := IntStr(n) + unit; ParseInt(s[..|s| - 5]) == Some(n)
  {
    var s := IntStr(n) + unit;
    assert s[..|s| - 5] == IntStr(n);
    ParseIntStr(n);
  }

  function EmergencyIcon(alertType: Option<string>): (r: string)
    ensures alertType !in {Some("health"), Some("fire"), Some("accident"), Some("security")} ==> r == "AlertTriangle"
  {
    match alertType
    case Some("health") => "Heart"
    case Some("fire") => "Flame"
    case Some("accident") => "Car"
    case Some("security") => "Shield"
    case _ => "AlertTriangle"
  }

  function EmergencyColor(alertType: Option<string>): (r: string)
    ensures alertType !in {Some("health"), Some("fire"), Some("accident"), Some("security")} ==> r == "text-primary bg-primary/10"
  {
    match alertType
    case Some("health") => "text-red-600 bg-red-50"
    case Some("fire") => "text-orange-600 bg-orange-50"
    case Some("accident") => "text-yellow-600 bg-yellow-50"
    case Some("security") => "text-blue-600 bg-blue-50"
    case _ => "text-primary bg-primary/10"
  }

  function UrgencyColor(urgency: Option<string>): (r: string)
    ensures urgency !in {Some("critical"), Some("high")} ==> r == "text-muted-foreground bg-muted/10"
  {
    match urgency
    case Some("critical") => "text-primary bg-primary/10"
    case Some("high") => "text-warning bg-warning/10"
    case _ => "text-muted-foreground bg-muted/10"
  }

  /** The type icon and colour fall back together. */
  lemma TypeFallbacksAgree(alertType: Option<string>)
    ensures EmergencyIcon(alertType) == "AlertTriangle" <==> EmergencyColor(alertType) == "text-primary bg-primary/10"
  {
  }

  /** What the card shows of an alert. */
  datatype CardView = CardView(
    title: string,
    timeAgo: string,
    urgencyText: string,
    distanceText: Option<string>,
    description: Option<string>,
    victimName: string,
    nearbyVolunteers: int)

  function View(a: DashAlert, now: int): (v: CardView)
    ensures a.alertType.Some? && a.alertType.value != "" ==> v.title == a.alertType.value + " Alert"
    ensures a.alertType.None? || a.alertType.value == "" ==> v.title == "Emergency Alert"
    ensures v.timeAgo == TimeAgo(now - a.timestamp)
    ensures a.urgency.Some? && a.urgency.value != "" ==> v.urgencyText == a.urgency.value
    ensures a.urgency.None? || a.urgency.value == "" ==> v.urgencyText == "standard"
    ensures v.distanceText == AlertHistoryCard.FormatDistance(a.distance)
    ensures v.description.Some? <==> a.description.Some? && a.description.value != ""
    ensures a.victimName.Some? && a.victimName.value != "" ==> v.victimName == a.victimName.value
    ensures a.victimName.None? || a.victimName.value == "" ==> v.victimName == "Anonymous"
    ensures v.nearbyVolunteers == (if TruthyInt(a.nearbyVolunteers) then a.nearbyVolunteers.value else 3)
  {
    CardView(
      TextOr(a.alertType, "Emergency") + " Alert",
      TimeAgo(now - a.timestamp),
      TextOr(a.urgency, "standard"),
      AlertHistoryCard.FormatDistance(a.distance),
      if a.description.Some? && a.description.value != "" then a.description else None,
      TextOr(a.victimName, "Anonymous"),
      IntOr(a.nearbyVolunteers, 3))
  }

  datatype Action = Accept | Reject

  class Card {
    const alert: DashAlert
    var actionType: Option<Action>

    constructor (alert: DashAlert)
      ensures this.alert == alert && actionType.None?
    {
      this.alert := alert;
      actionType := None;
    }

    /** handleAccept: the choice is recorded, then the card's alert goes to `onAccept`. */
    method HandleAccept() returns (forwarded: DashAlert)
      modifies this
      ensures actionType == Some(Accept) && forwarded == alert
    {
      actionType := Some(Accept);
      forwarded := alert;
    }

    /** handleReject: the choice is recorded, then the card's alert goes to `onReject`. */
    method HandleReject() returns (forwarded: DashAlert)
      modifies this
      ensures actionType == Some(Reject) && forwarded == alert
    {
      actionType := Some(Reject);
      forwarded := alert;
    }

    /** Which button shows the spinner: only while processing, and only the one pressed last. */
    function Loading(isProcessing: bool, button: Action): (b: bool)
      reads this
      ensures b <==> isProcessing && actionType == Some(button)
    {
      isProcessing && actionType == Some(button)
    }
  }

  /** After a press, at most one button spins, and it is the one pressed. */
  method PressThenLoading(a: DashAlert, accept: bool) returns (acceptSpins: bool, rejectSpins: bool)
    ensures acceptSpins == accept && rejectSpins == !accept
  {
    var card := new Card(a);
    if accept {
      var _ := card.HandleAccept();
    } else {
      var _ := card.HandleReject();
    }
    acceptSpins, rejectSpins := card.Loading(true, Accept), card.Loading(true, Reject);
  }
}
