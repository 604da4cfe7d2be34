/**
 * The victim's recent-alerts list
 * (src/pages/victim-dashboard/components/RecentAlertsHistory.jsx): the
 * built-in sample list used when none is given, the "time ago" text, the
 * three-item cap with its "View N more" footer, and the per-alert lines.
 *
 * Times are integer milliseconds and the clock is a parameter.
 */
module RecentAlertsHistory {
  import opened Common
  import opened JsText
  import opened SeqUtil

  datatype RecentAlert = RecentAlert(
    id: string,
    alertType: string,
    timestamp: int,
    status: string,
    location: string,
    responseTime: string,
    volunteersResponded: int,
    outcome: string)

  const HourMs := 3600000
  const DayMs := 86400000

  /** The built-in list, stamped relative to the current time. */
  function SampleAlerts(now: int): (r: seq<RecentAlert>)
    ensures |r| == 3
  {
    [RecentAlert("alert_001", "health", now - HourMs, "resolved", "Main St & 5th Ave", "4 minutes", 2,
       "Assisted by volunteer, transported to hospital"),
     RecentAlert("alert_002", "accident", now - 2 * DayMs, "resolved", "Park Avenue", "7 minutes", 1,
       "Minor injury treated on scene"),
     RecentAlert("alert_003", "security", now - 5 * DayMs, "cancelled", "Home address", "N/A", 0,
       "False alarm, cancelled by user")]
  }

  /** alertsToShow: the given alerts, or the sample list when none are given. */
  function AlertsToShow(recentAlerts: seq<RecentAlert>, now: int): (r: seq<RecentAlert>)
    ensures |recentAlerts| > 0 ==> r == recentAlerts
    ensures |recentAlerts| == 0 ==> r == SampleAlerts(now)
    ensures |r| > 0
  {
    if |recentAlerts| > 0 then recentAlerts else SampleAlerts(now)
  }

  /** "N unit" with an 's' exactly when N is more than one, then " ago". */
  function CountAgo(n: int, unit: string): string {
    IntStr(n) + " " + unit + (if n > 1 then "s" else "") + " ago"
  }

  /** formatTimeAgo on the age in milliseconds: whole hours floored, then whole days of those hours. */
  function FormatTimeAgo(diff: int): (r: string)
  {
    var hours := diff / (1000 * 60 * 60);
    var days := hours / 24;
    if days > 0 then CountAgo(days, "day")
    else if hours > 0 then CountAgo(hours, "hour")
    else "Less than an hour ago"
  }

  /** An age read directly in days and hours of milliseconds. */
  datatype Age = Days(days: int) | Hours(hours: int) | UnderAnHour

  function AgeOf(diff: int): (a: Age)
    ensures a.Days? ==> a.days >= 1 && a.days * DayMs <= diff < (a.days + 1) * DayMs
    ensures a.Hours? ==> 1 <= a.hours < 24 && a.hours * HourMs <= diff < (a.hours + 1) * HourMs
    ensures a.UnderAnHour? ==> diff < HourMs
  {
    if diff >= DayMs then Days(diff / DayMs)
    else if diff >= HourMs then Hours(diff / HourMs)
    else UnderAnHour
  }

  function AgeText(a: Age): string {
    match a
    case Days(d) => CountAgo(d, "day")
    case Hours(h) => CountAgo(h, "hour")
    case UnderAnHour => "Less than an hour ago"
  }

  /** Flooring to hours and then to days is flooring to days: the text names the age's days, else its hours, else less than an hour. */
  lemma FormatTimeAgoIsAge(diff: int)
    ensures FormatTimeAgo(diff) == AgeText(AgeOf(diff))
  {
    var hours := diff / HourMs;
    assert HourMs * hours <= diff < HourMs * hours + HourMs;
    var days := hours / 24;
    assert 24 * days <= hours < 24 * days + 24;
    assert DayMs * days <= diff < DayMs * days + DayMs;
    if diff >= DayMs {
      assert days == diff / DayMs;
    }
  }

  /** The sample list reads "1 hour ago", "2 days ago" and "5 days ago". */
  lemma SampleAges(now: int)
    ensures var s := SampleAlerts(now);
      FormatTimeAgo(now - s[0].timestamp) == CountAgo(1, "hour")
      && FormatTimeAgo(now - s[1].timestamp) == CountAgo(2, "day")
      && FormatTimeAgo(now - s[2].timestamp) == CountAgo(5, "day")
  {
    var s := SampleAlerts(now);
    assert now - s[0].timestamp == HourMs;
    assert now - s[1].timestamp == 2 * DayMs;
    assert now - s[2].timestamp == 5 * DayMs;
    assert FormatTimeAgo(HourMs) == CountAgo(1, "hour");
    assert FormatTimeAgo(2 * DayMs) == CountAgo(2, "day");
    assert FormatTimeAgo(5 * DayMs) == CountAgo(5, "day");
  }

  /** At most the first three alerts are listed. */
  function Listed(alerts: seq<RecentAlert>): (r: seq<RecentAlert>)
    ensures |r| <= 3 && |r| <= |alerts| && r == alerts[..|r|]
    ensures |alerts| <= 3 ==> r == alerts
  {
    Take(alerts, 3)
  }

  /** The "View N more alerts" footer: shown only when expanded and over three alerts, counting the ones not listed. */
  function MoreCount(alerts: seq<RecentAlert>, isCollapsed: bool): (r: Option<int>)
    ensures r.Some? <==> !isCollapsed && |alerts| > 3
    ensures r.Some? ==> r.value > 0 && |Listed(alerts)| + r.value == |alerts|
  {
    if !isCollapsed && |alerts| > 3 then Some(|alerts| - 3) else None
  }

  function TypeIcon(alertType: string): (r: string)
    ensures alertType !in {"health", "fire", "accident", "security"} ==> r == "AlertTriangle"
  {
    match alertType
    case "health" => "Heart"
    case "fire" => "Flame"
    case "accident" => "Car"
    case "security" => "Shield"
    case _ => "AlertTriangle"
  }

  function TypeColor(alertType: string): (r: string)
    ensures alertType !in {"health", "fire", "accident", "security"} ==> r == "text-muted-foreground"
  {
    match alertType
    case "health" => "text-primary"
    case "fire" => "text-warning"
    case "accident" => "text-destructive"
    case "security" => "text-accent"
    case _ => "text-muted-foreground"
  }

  function StatusColor(status: string): (r: string)
    ensures status !in {"resolved", "cancelled", "active"} ==> r == "text-muted-foreground bg-muted/10"
  {
    match status
    case "resolved" => "text-success bg-success/10"
    case "cancelled" => "text-muted-foreground bg-muted/50"
    case "active" => "text-primary bg-primary/10"
    case _ => "text-muted-foreground bg-muted/10"
  }

  /** The icon and the colour fall back together: a type gets the default icon exactly when it gets the muted colour. */
  lemma TypeFallbacksAgree(alertType: string)
    ensures TypeIcon(alertType) == "AlertTriangle" <==> TypeColor(alertType) == "text-muted-foreground"
  {
  }

  /** The lines of one listed alert. */
  datatype ItemView = ItemView(
    icon: string,
    heading: string,
    timeAgo: string,
    responseText: Option<string>,
    volunteersText: Option<string>,
    outcome: Option<string>)

  function Item(a: RecentAlert, now: int): (v: ItemView)
    ensures v.heading == a.alertType + " Emergency"
    ensures v.timeAgo == AgeText(AgeOf(now - a.timestamp))
    ensures v.responseText.Some? <==> a.responseTime != "N/A"
    ensures v.volunteersText.Some? <==> a.volunteersResponded > 0
    ensures a.volunteersResponded > 0 ==>
              v.volunteersText.value == IntStr(a.volunteersResponded) + " volunteer" + (if a.volunteersResponded > 1 then "s" else "") + " responded"
    ensures v.outcome.Some? <==> a.outcome != ""
  {
    FormatTimeAgoIsAge(now - a.timestamp);
    ItemView(
      TypeIcon(a.alertType),
      a.alertType + " Emergency",
      FormatTimeAgo(now - a.timestamp),
      if a.responseTime != "N/A" then Some("Response: " + a.responseTime) else None,
      if a.volunteersResponded > 0 then
        Some(IntStr(a.volunteersResponded) + " volunteer" + (if a.volunteersResponded > 1 then "s" else "") + " responded")
      else None,
      if a.outcome != "" then Some(a.outcome) else None)
  }

  /** The whole list: nothing while collapsed, otherwise the listed items in order. */
  function Items(recentAlerts: seq<RecentAlert>, now: int, isCollapsed: bool): (r: seq<ItemView>)
    ensures isCollapsed ==> r == []
    ensures !isCollapsed ==> |r| == |Listed(AlertsToShow(recentAlerts, now))|
    ensures !isCollapsed ==> forall i | 0 <= i < |r| :: r[i] == Item(AlertsToShow(recentAlerts, now)[i], now)
  {
    if isCollapsed then []
    else
      var listed := Listed(AlertsToShow(recentAlerts, now));
      seq(|listed|, (i: int) requires 0 <= i < |listed| => Item(listed[i], now))
  }
}
