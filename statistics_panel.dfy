/**
 * The summary above the alert history
 * (src/pages/alert-history/components/StatisticsPanel.jsx): four stat
 * cards chosen by role and three insight lines, each with its fallback for
 * a missing or falsy statistic. Ratings and the success rate are tenths.
 */
module StatisticsPanel {
  import opened Common
  import opened JsText
  import opened DurationText

  datatype HistoryStats = HistoryStats(
    totalAlerts: Option<int>,
    resolvedAlerts: Option<int>,
    avgResponseTime: Option<int>,
    uniqueVolunteers: Option<int>,
    totalResponses: Option<int>,
    peopleHelped: Option<int>,
    averageRating: Option<nat>,
    successRate: Option<int>,
    thisMonth: Option<int>,
    streak: Option<int>)

  datatype CardValue = Count(n: int) | Text(s: string)

  datatype StatCard = StatCard(title: string, value: CardValue, icon: string)

  const NotAvailable := "N/A"

  /** The response-time card: the formatted minutes, or 'N/A' when the average is missing or 0. */
  function ResponseTimeValue(stats: HistoryStats): (v: CardValue)
    ensures TruthyInt(stats.avgResponseTime) ==> v.Text? && ParseDuration(v.s) == stats.avgResponseTime
    ensures !TruthyInt(stats.avgResponseTime) ==> v == Text(NotAvailable)
  {
    FormatDurationRoundTrip(IntOr(stats.avgResponseTime, 0));
    if TruthyInt(stats.avgResponseTime) then Text(FormatDuration(stats.avgResponseTime.value)) else Text(NotAvailable)
  }

  /** The rating card: `${averageRating.toFixed(1)}/5`, or 'N/A' when the rating is missing or 0. */
  function RatingValue(stats: HistoryStats): (v: CardValue)
    ensures stats.averageRating.Some? && stats.averageRating.value != 0 ==>
              v.Text? && v.s == ToFixed1(stats.averageRating.value) + "/5"
    ensures stats.averageRating.None? || stats.averageRating.value == 0 ==> v == Text(NotAvailable)
  {
    if stats.averageRating.Some? && stats.averageRating.value != 0 then Text(ToFixed1(stats.averageRating.value) + "/5")
    else Text(NotAvailable)
  }

  /** getStatCards: the victim set for 'victim', the volunteer set for every other role. */
  function StatCards(stats: HistoryStats, userRole: string): (r: seq<StatCard>)
    ensures |r| == 4
    ensures userRole == "victim" ==>
              r[0].title == "Total Alerts Sent" && r[1].title == "Successfully Resolved"
              && r[2].title == "Average Response Time" && r[3].title == "Volunteers Helped"
    ensures userRole != "victim" ==>
              r[0].title == "Alerts Responded" && r[1].title == "People Helped"
              && r[2].title == "Average Response Time" && r[3].title == "Community Rating"
    ensures r[2].value == ResponseTimeValue(stats)
    ensures r[3].value == if userRole == "victim" then Count(IntOr(stats.uniqueVolunteers, 0)) else RatingValue(stats)
  {
    if userRole == "victim" then
      [StatCard("Total Alerts Sent", Count(IntOr(stats.totalAlerts, 0)), "AlertTriangle"),
       StatCard("Successfully Resolved", Count(IntOr(stats.resolvedAlerts, 0)), "CheckCircle"),
       StatCard("Average Response Time", ResponseTimeValue(stats), "Clock"),
       StatCard("Volunteers Helped", Count(IntOr(stats.uniqueVolunteers, 0)), "Users")]
    else
      [StatCard("Alerts Responded", Count(IntOr(stats.totalResponses, 0)), "Heart"),
       StatCard("People Helped", Count(IntOr(stats.peopleHelped, 0)), "Users"),
       StatCard("Average Response Time", ResponseTimeValue(stats), "Clock"),
       StatCard("Community Rating", RatingValue(stats), "Star")]
  }

  /** An empty statistics record shows zeros and 'N/A', never a missing value. */
  lemma EmptyStatsFallbacks(userRole: string)
    ensures var r := StatCards(HistoryStats(None, None, None, None, None, None, None, None, None, None), userRole);
      r[0].value == Count(0) && r[1].value == Count(0) && r[2].value == Text(NotAvailable)
      && r[3].value == (if userRole == "victim" then Count(0) else Text(NotAvailable))
  {
  }

  /** The count cards show the statistic when it is non-zero and 0 otherwise. */
  lemma CountCardsFallBackToZero(stats: HistoryStats, userRole: string)
    ensures var r := StatCards(stats, userRole);
      if userRole == "victim" then
        r[0].value == Count(if TruthyInt(stats.totalAlerts) then stats.totalAlerts.value else 0)
        && r[1].value == Count(if TruthyInt(stats.resolvedAlerts) then stats.resolvedAlerts.value else 0)
        && r[3].value == Count(if TruthyInt(stats.uniqueVolunteers) then stats.uniqueVolunteers.value else 0)
      else
        r[0].value == Count(if TruthyInt(stats.totalResponses) then stats.totalResponses.value else 0)
        && r[1].value == Count(if TruthyInt(stats.peopleHelped) then stats.peopleHelped.value else 0)
  {
  }

  /** The rating card's text reads back as the rating in tenths. */
  lemma RatingTextValue(stats: HistoryStats)
    requires stats.averageRating.Some? && stats.averageRating.value != 0
    ensures var s := RatingValue(stats).s;
      |s| >= 5 && s[|s| - 2..] == "/5" && s[|s| - 4] == '.'
      && AllDigits(s[..|s| - 4]) && IsDigit(s[|s| - 3])
      && 10 * DigitsValue(s[..|s| - 4]) + DigitValue(s[|s| - 3]) == stats.averageRating.value
  {
    var t := stats.averageRating.value;
    var f := ToFixed1(t);
    ToFixed1Value(t);
    var s := f + "/5";
    assert s[..|s| - 4] == f[..|f| - 2];
    assert s[|s| - 3] == f[|f| - 1];
  }

  /** The success-rate insight: the rounded percentage, or 'N/A' when the rate is missing or 0. */
  function SuccessRateText(stats: HistoryStats): (s: string)
    ensures TruthyInt(stats.successRate) ==>
              exists p :: s == IntStr(p) + "%" && 10 * p - 5 <= stats.successRate.value < 10 * p + 5
    ensures !TruthyInt(stats.successRate) ==> s == NotAvailable
  {
    if TruthyInt(stats.successRate) then IntStr(RoundTenths(stats.successRate.value)) + "%" else NotAvailable
  }

  /** A count followed by a fixed suffix: the prefix reads back as the count. */
  lemma CountTextValue(n: int, suffix: string)
    ensures var s := IntStr(n) + suffix;
      |s| > |suffix| && s[|s| - |suffix|..] == suffix && ParseInt(s[..|s| - |suffix|]) == Some(n)
  {
    var s := IntStr(n) + suffix;
    assert s[..|s| - |suffix|] == IntStr(n);
    ParseIntStr(n);
  }

  /** "This Month": the count (0 when missing or 0) and the role's noun. */
  function ThisMonthText(stats: HistoryStats, userRole: string): (s: string)
    ensures var suffix := if userRole == "victim" then " alerts" else " responses";
      |s| > |suffix| && s[|s| - |suffix|..] == suffix && ParseInt(s[..|s| - |suffix|]) == Some(IntOr(stats.thisMonth, 0))
  {
    var suffix := if userRole == "victim" then " alerts" else " responses";
    CountTextValue(IntOr(stats.thisMonth, 0), suffix);
    IntStr(IntOr(stats.thisMonth, 0)) + suffix
  }

  /** "Streak": the count (0 when missing or 0) and "days active". */
  function StreakText(stats: HistoryStats): (s: string)
    ensures |s| > 12 && s[|s| - 12..] == " days active" && ParseInt(s[..|s| - 12]) == Some(IntOr(stats.streak, 0))
  {
    CountTextValue(IntOr(stats.streak, 0), " days active");
    IntStr(IntOr(stats.streak, 0)) + " days active"
  }
}
