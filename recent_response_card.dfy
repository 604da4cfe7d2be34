/**
 * One past response on the volunteer dashboard
 * (src/pages/volunteer-dashboard/components/RecentResponseCard.jsx): the
 * type and status styles, whether the date shows as a time or a day, the
 * two durations, and the five-star rating row.
 *
 * The type icon and colour tables are the same as the active-alert card's
 * and are reused from `ActiveAlertCard`; `formatDuration` is the shared
 * `DurationText.FormatDuration`. The locale-formatted date text is not
 * modelled, only which of the two forms is chosen.
 */
module RecentResponseCard {
  import opened Common
  import opened DurationText
  import ActiveAlertCard

  datatype RecentResponse = RecentResponse(
    id: string,
    responseType: Option<string>,
    status: Option<string>,
    location: string,
    timestamp: int,
    responseTime: Option<int>,
    duration: Option<int>,
    outcome: Option<string>,
    rating: Option<int>)

  function StatusColor(status: Option<string>): (r: string)
    ensures status !in {Some("completed"), Some("in-progress"), Some("cancelled")} ==> r == "text-primary bg-primary/10"
  {
    match status
    case Some("completed") => "text-success bg-success/10"
    case Some("in-progress") => "text-warning bg-warning/10"
    case Some("cancelled") => "text-muted-foreground bg-muted/10"
    case _ => "text-primary bg-primary/10"
  }

  function StatusIcon(status: Option<string>): (r: string)
    ensures status !in {Some("completed"), Some("in-progress"), Some("cancelled")} ==> r == "AlertCircle"
  {
    match status
    case Some("completed") => "CheckCircle"
    case Some("in-progress") => "Clock"
    case Some("cancelled") => "XCircle"
    case _ => "AlertCircle"
  }

  /** The status colour and icon fall back together. */
  lemma StatusFallbacksAgree(status: Option<string>)
    ensures StatusColor(status) == "text-primary bg-primary/10" <==> StatusIcon(status) == "AlertCircle"
  {
  }

  datatype DateForm = TimeOfDay | MonthAndDay

  /** formatDate: the time of day for a response under 24 whole hours old, the month and day otherwise. */
  function DateFormFor(timestamp: int, now: int): (f: DateForm)
    ensures f == TimeOfDay <==> now - timestamp < 24 * 3600000
  {
    var hours := (now - timestamp) / 3600000;
    if hours < 24 then TimeOfDay else MonthAndDay
  }

  /** Star `i` of the row is filled exactly when it comes before the rating. */
  function Stars(rating: int): (r: seq<bool>)
    ensures |r| == 5
    ensures forall i | 0 <= i < 5 :: r[i] <==> i < rating
  {
    seq(5, (i: int) => i < rating)
  }

  /** A whole rating from 0 to 5 fills exactly that many stars, from the left. */
  lemma StarsCountRating(rating: int)
    requires 0 <= rating <= 5
    ensures Stars(rating) == seq(rating, (i: int) => true) + seq(5 - rating, (i: int) => false)
  {
  }

  /** What the card shows of a response; `{response?.rating && …}` renders a bare "0" for a rating of 0. */
  datatype CardView = CardView(
    title: string,
    dateForm: DateForm,
    responseTimeText: string,
    durationText: string,
    outcome: Option<string>,
    stars: Option<seq<bool>>,
    bareZero: bool)

  function View(r: RecentResponse, now: int): (v: CardView)
    ensures r.responseType.Some? && r.responseType.value != "" ==> v.title == r.responseType.value + " Response"
    ensures r.responseType.None? || r.responseType.value == "" ==> v.title == "Emergency Response"
    ensures v.dateForm == DateFormFor(r.timestamp, now)
    ensures ParseDuration(v.responseTimeText) == Some(if TruthyInt(r.responseTime) then r.responseTime.value else 0)
    ensures ParseDuration(v.durationText) == Some(if TruthyInt(r.duration) then r.duration.value else 0)
    ensures v.outcome.Some? <==> r.outcome.Some? && r.outcome.value != ""
    ensures v.stars.Some? <==> TruthyInt(r.rating)
    ensures v.stars.Some? ==> v.stars.value == Stars(r.rating.value)
    ensures v.bareZero <==> r.rating == Some(0)
  {
    FormatDurationRoundTrip(IntOr(r.responseTime, 0));
    FormatDurationRoundTrip(IntOr(r.duration, 0));
    CardView(
      TextOr(r.responseType, "Emergency") + " Response",
      DateFormFor(r.timestamp, now),
      FormatDuration(IntOr(r.responseTime, 0)),
      FormatDuration(IntOr(r.duration, 0)),
      if r.outcome.Some? && r.outcome.value != "" then r.outcome else None,
      if TruthyInt(r.rating) then Some(Stars(r.rating.value)) else None,
      r.rating == Some(0))
  }

  /** The type icon, shared with the active-alert card. */
  function TypeIcon(r: RecentResponse): (icon: string)
    ensures r.responseType !in {Some("health"), Some("fire"), Some("accident"), Some("security")} ==> icon == "AlertTriangle"
  {
    ActiveAlertCard.EmergencyIcon(r.responseType)
  }
}
