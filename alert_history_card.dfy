/**
 * One entry of the alert-history list
 * (src/pages/alert-history/components/AlertHistoryCard.jsx): its icon and
 * colour lookups, the status label, the distance and duration texts, and
 * which parts of the card are shown.
 */
module AlertHistoryCard {
  import opened Common
  import opened JsText
  import opened Lookup
  import opened DurationText
  import opened AlertHistory

  const TypeIcons: seq<Entry> := [
    Entry("medical", "Heart"), Entry("fire", "Flame"), Entry("accident", "Car"),
    Entry("security", "Shield"), Entry("natural", "CloudRain"), Entry("other", "AlertTriangle")]

  const StatusColors: seq<Entry> := [
    Entry("completed", "text-success bg-success/10"), Entry("cancelled", "text-muted-foreground bg-muted/20"),
    Entry("pending", "text-warning bg-warning/10"), Entry("in-progress", "text-accent bg-accent/10"),
    Entry("no-response", "text-destructive bg-destructive/10")]

  const UrgencyColors: seq<Entry> := [
    Entry("critical", "text-primary"), Entry("high", "text-warning"),
    Entry("medium", "text-accent"), Entry("low", "text-muted-foreground")]

  const DefaultIcon := "AlertTriangle"
  const MutedStatus := "text-muted-foreground bg-muted/20"
  const MutedUrgency := "text-muted-foreground"

  function TypeIcon(alertType: string): (r: string)
    ensures !HasKey(TypeIcons, alertType) ==> r == DefaultIcon
  {
    Find(TypeIcons, alertType, DefaultIcon)
  }

  function StatusColor(status: string): (r: string)
    ensures !HasKey(StatusColors, status) ==> r == MutedStatus
  {
    Find(StatusColors, status, MutedStatus)
  }

  function UrgencyColor(urgency: string): (r: string)
    ensures !HasKey(UrgencyColors, urgency) ==> r == MutedUrgency
  {
    Find(UrgencyColors, urgency, MutedUrgency)
  }

  /** Each of the six known types has its own icon. */
  lemma KnownTypeIcons()
    ensures TypeIcon("medical") == "Heart" && TypeIcon("fire") == "Flame" && TypeIcon("accident") == "Car"
    ensures TypeIcon("security") == "Shield" && TypeIcon("natural") == "CloudRain" && TypeIcon("other") == "AlertTriangle"
  {
    assert TypeIcons[0].key == "medical";
    assert TypeIcons[1].key == "fire" && TypeIcons[0].key != "fire";
    assert TypeIcons[2].key == "accident" && TypeIcons[0].key != "accident" && TypeIcons[1].key != "accident";
    assert TypeIcons[3].key == "security" && forall j | 0 <= j < 3 :: TypeIcons[j].key != "security";
    assert TypeIcons[4].key == "natural" && forall j | 0 <= j < 4 :: TypeIcons[j].key != "natural";
    assert TypeIcons[5].key == "other" && forall j | 0 <= j < 5 :: TypeIcons[j].key != "other";
  }

  /** Colours come from the tables or are the muted defaults. */
  lemma ColorsInRange(status: string, urgency: string)
    ensures StatusColor(status) == MutedStatus || exists i | 0 <= i < |StatusColors| :: StatusColor(status) == StatusColors[i].value
    ensures UrgencyColor(urgency) == MutedUrgency || exists i | 0 <= i < |UrgencyColors| :: UrgencyColor(urgency) == UrgencyColors[i].value
  {
    FindRange(StatusColors, status, MutedStatus);
    FindRange(UrgencyColors, urgency, MutedUrgency);
  }

  /** `status.replace('-', ' ')`: only the first hyphen becomes a space. */
  function StatusLabel(status: string): (r: string)
    ensures |r| == |status|
    ensures '-' !in status ==> r == status
  {
    ReplaceFirst(status, '-', ' ')
  }

  /** "no-response" reads "no response"; a second hyphen stays. */
  lemma StatusLabelFirstHyphen(status: string, k: nat)
    requires k < |status| && status[k] == '-' && '-' !in status[..k]
    ensures StatusLabel(status) == status[..k] + " " + status[k + 1..]
  {
    ReplaceFirstAt(status, '-', ' ', k);
  }

  /**
   * formatDistance for a distance under 1000 m (given in tenths of a metre):
   * the rounded metre count and "m". The kilometre branch is `None`.
   */
  function FormatDistance(tenths: int): (r: Option<string>)
    ensures tenths < 10000 <==> r.Some?
  {
    if tenths < 10000 then Some(IntStr(RoundTenths(tenths)) + "m") else None
  }

  /** The metre text reads back as a whole number within half a metre of the distance. */
  lemma FormatDistanceClose(tenths: int)
    requires tenths < 10000
    ensures var s := FormatDistance(tenths).value;
      s[|s| - 1] == 'm' && ParseInt(s[..|s| - 1]).Some?
      && 10 * ParseInt(s[..|s| - 1]).value - 5 <= tenths < 10 * ParseInt(s[..|s| - 1]).value + 5
  {
    var r := RoundTenths(tenths);
    var s := IntStr(r) + "m";
    assert s[..|s| - 1] == IntStr(r);
    ParseIntStr(r);
  }

  /** What the card shows of an alert. */
  datatype CardView = CardView(
    icon: string,
    statusLabel: string,
    distanceText: Option<Option<string>>,
    responseTimeText: Option<string>,
    helpers: int,
    showsDescription: bool,
    showsVolunteers: bool,
    showsVictimDetails: bool,
    showsCommunications: bool,
    showsRate: bool)

  function View(a: HistoryAlert, userRole: string): (v: CardView)
    ensures v.distanceText.Some? <==> TruthyInt(a.distance)
    ensures v.responseTimeText.Some? <==> TruthyInt(a.responseTime)
    ensures TruthyInt(a.responseTime) ==> ParseDuration(v.responseTimeText.value) == a.responseTime
    ensures v.helpers == (if TruthyInt(a.respondersCount) then a.respondersCount.value else 0)
    ensures v.showsVolunteers <==> userRole == "victim" && |a.responders| > 0
    ensures v.showsVictimDetails <==> userRole == "volunteer" && a.hasVictimInfo
    ensures v.showsRate <==> a.status == "completed"
  {
    FormatDurationRoundTrip(IntOr(a.responseTime, 0));
    CardView(
      TypeIcon(a.alertType),
      StatusLabel(a.status),
      if TruthyInt(a.distance) then Some(FormatDistance(a.distance.value)) else None,
      if TruthyInt(a.responseTime) then Some(FormatDuration(a.responseTime.value)) else None,
      IntOr(a.respondersCount, 0),
      a.description != "",
      userRole == "victim" && |a.responders| > 0,
      userRole == "volunteer" && a.hasVictimInfo,
      a.communicationCount > 0,
      a.status == "completed")
  }
}
