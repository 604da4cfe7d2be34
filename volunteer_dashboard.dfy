/**
 * The volunteer's page (src/pages/volunteer-dashboard/index.jsx): the
 * availability switch with its one-second simulated delay, the effect that
 * loads the mock alerts and responses and arms a five-second timer for an
 * incoming alert, the accept / reject handlers that drop an alert from the
 * list, the notification overlay's handlers, and what the page shows.
 *
 * The effect depends on `isAvailable`, so it runs on mount and again after
 * every render in which availability changed. Each run reloads the mock
 * alerts, so going offline puts the three alerts straight back after the
 * toggle's handler emptied the list: the header count and the map show
 * them while the list area says "You're Currently Unavailable". The
 * methods named `…AsWritten` keep that behaviour; the others load alerts
 * only while available, which keeps the invariant that an offline
 * volunteer holds no alerts.
 *
 * Timers are explicit: `pendingToggles` holds the toggle timeouts not yet
 * fired (all of the same delay, so they fire in order) and `alertTimer`
 * the five-second timeout of the latest effect run with the availability
 * it captured; re-running the effect clears the previous one. Times are
 * integer milliseconds and distances tenths of a metre.
 */
module VolunteerDashboard {
  import opened Common
  import opened SeqUtil
  import opened ActiveAlertCard
  import RecentResponseCard
  import ResponseStats

  const MockStats := ResponseStats.Stats(12, 11, 420, 48)

  // The long texts of the mock records, named so that the records stay readable.
  const HealthDescription := "Elderly person collapsed during morning jog. Conscious but experiencing chest pain."
  const AccidentDescription := "Minor car accident with possible injuries. Traffic is backing up."
  const SecurityDescription := "Person feels unsafe walking alone at night. Requesting escort assistance."
  const HealthOutcome := "Successfully assisted victim until paramedics arrived. Victim was stable and grateful."
  const FireOutcome := "Helped evacuate area and guided fire department to exact location."
  const AccidentOutcome := "Provided first aid and traffic control until emergency services arrived."
  const IncomingDescription := "Person experiencing severe allergic reaction. Needs immediate assistance."

  /** The three alerts the effect loads, stamped 5, 10 and 15 minutes before `now`. */
  function MockActiveAlerts(now: int): seq<DashAlert> {
    [DashAlert("alert_001", Some("health"), Some("critical"), "Central Park West, Manhattan",
               Some(HealthDescription),
               Some("Sarah Johnson"), 8500, now - 300000, Some(4)),
     DashAlert("alert_002", Some("accident"), Some("high"), "Broadway & 42nd Street",
               Some(AccidentDescription),
               Some("Michael Chen"), 12000, now - 600000, Some(2)),
     DashAlert("alert_003", Some("security"), Some("standard"), "Washington Square Park",
               Some(SecurityDescription),
               Some("Anonymous"), 21000, now - 900000, Some(6))]
  }

  /** The three past responses the effect loads. */
  function MockRecentResponses(now: int): seq<RecentResponseCard.RecentResponse> {
    [RecentResponseCard.RecentResponse("resp_001", Some("health"), Some("completed"), "Times Square, Manhattan",
       now - 7200000, Some(360), Some(45),
       Some(HealthOutcome), Some(5)),
     RecentResponseCard.RecentResponse("resp_002", Some("fire"), Some("completed"), "Brooklyn Bridge Park",
       now - 86400000, Some(480), Some(30),
       Some(FireOutcome), Some(5)),
     RecentResponseCard.RecentResponse("resp_003", Some("accident"), Some("completed"), "5th Avenue & 59th Street",
       now - 172800000, Some(300), Some(60),
       Some(AccidentOutcome), Some(4))]
  }

  /** The alert the five-second timer raises. It has no victim name and no volunteer count. */
  function IncomingAlert(now: int): DashAlert {
    DashAlert("alert_new", Some("health"), Some("critical"), "Madison Square Garden",
              Some(IncomingDescription),
              None, 6500, now, None)
  }

  /** The mock alerts have distinct ids, none of them the incoming alert's. */
  lemma MockIds(now: int)
    ensures var m := MockActiveAlerts(now);
      |m| == 3 && (forall i, j | 0 <= i < j < |m| :: m[i].id != m[j].id)
      && forall i | 0 <= i < |m| :: m[i].id != IncomingAlert(now).id
  {
  }

  function NotId(id: string): DashAlert -> bool {
    (a: DashAlert) => a.id != id
  }

  /** `prev.filter(a => a.id !== alert.id)`: every alert with that id leaves, the others stay in order. */
  function Without(alerts: seq<DashAlert>, id: string): (r: seq<DashAlert>)
    ensures forall a :: a in r <==> a in alerts && a.id != id
    ensures IsSubsequence(r, alerts)
    ensures |r| <= |alerts|
  {
    FilterMembershipAll(alerts, NotId(id));
    FilterIsSubsequence(alerts, NotId(id));
    Filter(alerts, NotId(id))
  }

  /** Removing an id that no alert carries leaves the list as it was. */
  lemma WithoutAbsent(alerts: seq<DashAlert>, id: string)
    requires forall i | 0 <= i < |alerts| :: alerts[i].id != id
    ensures Without(alerts, id) == alerts
  {
    FilterAll(alerts, NotId(id));
  }

  /** Removing an id that one alert carries shortens the list. */
  lemma {:induction false} WithoutPresent(alerts: seq<DashAlert>, id: string, k: nat)
    requires k < |alerts| && alerts[k].id == id
    ensures |Without(alerts, id)| < |alerts|
  {
    if k > 0 && alerts[0].id != id {
      WithoutPresent(alerts[1..], id, k - 1);
    }
  }

  /** What fills the alerts column under its header. */
  datatype AlertsBody = Unavailable | NoEmergencies | Cards(alerts: seq<DashAlert>)

  datatype PageView = PageView(
    alertCount: int,
    receivingBadge: bool,
    body: AlertsBody,
    mapAlerts: seq<DashAlert>,
    recentShown: seq<RecentResponseCard.RecentResponse>,
    notificationVisible: bool)

  /**
   * The rendered page: the header counts every held alert and the map
   * plots them whatever the availability; the list shows them only to an
   * available volunteer; at most three recent responses are shown.
   */
  function ViewOf(isAvailable: bool, alerts: seq<DashAlert>, recent: seq<RecentResponseCard.RecentResponse>,
                  showNotification: bool): (v: PageView)
    ensures v.alertCount == |alerts| && v.mapAlerts == alerts
    ensures v.receivingBadge <==> isAvailable
    ensures v.body == Unavailable <==> !isAvailable
    ensures v.body == NoEmergencies <==> isAvailable && alerts == []
    ensures v.body.Cards? ==> v.body.alerts == alerts && alerts != []
    ensures |v.recentShown| == (if |recent| < 3 then |recent| else 3) && v.recentShown == recent[..|v.recentShown|]
    ensures v.notificationVisible == showNotification
  {
    PageView(|alerts|, isAvailable,
             if !isAvailable then Unavailable else if |alerts| == 0 then NoEmergencies else Cards(alerts),
             alerts, Take(recent, 3), showNotification)
  }

  class VolunteerPage {
    var isAvailable: bool
    var isLoading: bool
    var activeAlerts: seq<DashAlert>
    var recentResponses: seq<RecentResponseCard.RecentResponse>
    var showNotification: bool
    var currentAlert: Option<DashAlert>
    /** The armed five-second timer and the availability its effect run captured. */
    var alertTimer: Option<bool>
    /** The new statuses of the toggle timeouts not yet fired, first to fire first. */
    var pendingToggles: seq<bool>
    const stats: ResponseStats.Stats

    /** An offline volunteer holds no alerts; the overlay shows exactly when there is an alert for it. */
    predicate Valid()
      reads this
    {
      (!isAvailable ==> activeAlerts == [])
      && (showNotification <==> currentAlert.Some?)
    }

    function View(): PageView
      reads this
    {
      ViewOf(isAvailable, activeAlerts, recentResponses, showNotification)
    }

    /** Mount: the initial state followed by the effect's first run, while available. */
    constructor (now: int)
      ensures Valid()
      ensures isAvailable && !isLoading && !showNotification && currentAlert.None?
      ensures activeAlerts == MockActiveAlerts(now) && recentResponses == MockRecentResponses(now)
      ensures alertTimer == Some(true) && pendingToggles == [] && stats == MockStats
    {
      isAvailable := true;
      isLoading := false;
      showNotification := false;
      currentAlert := None;
      stats := MockStats;
      activeAlerts := MockActiveAlerts(now);
      recentResponses := MockRecentResponses(now);
      alertTimer := Some(true);
      pendingToggles := [];
    }

    /** handleAvailabilityToggle: show the spinner and start the one-second timeout. */
    method AvailabilityToggle(newStatus: bool)
      modifies this
      ensures isLoading && pendingToggles == old(pendingToggles) + [newStatus]
      ensures isAvailable == old(isAvailable) && activeAlerts == old(activeAlerts)
      ensures recentResponses == old(recentResponses) && alertTimer == old(alertTimer)
      ensures showNotification == old(showNotification) && currentAlert == old(currentAlert)
      ensures old(Valid()) ==> Valid()
    {
      isLoading := true;
      pendingToggles := pendingToggles + [newStatus];
    }

    /**
     * The toggle timeout fires as written: the handler sets the status and
     * empties or reloads the list; when the status changed, the effect
     * then runs again, reloads the mock alerts whatever the status, and
     * re-arms the notification timer with the new status.
     */
    method ToggleFiresAsWritten(now: int)
      requires pendingToggles != []
      modifies this
      ensures var s := old(pendingToggles[0]);
        isAvailable == s && !isLoading && pendingToggles == old(pendingToggles[1..])
        && activeAlerts == (if s || s != old(isAvailable) then MockActiveAlerts(now) else [])
        && recentResponses == (if s != old(isAvailable) then MockRecentResponses(now) else old(recentResponses))
        && alertTimer == (if s != old(isAvailable) then Some(s) else old(alertTimer))
      ensures showNotification == old(showNotification) && currentAlert == old(currentAlert)
    {
      var s := pendingToggles[0];
      var changed := s != isAvailable;
      pendingToggles := pendingToggles[1..];
      isAvailable := s;
      isLoading := false;
      // the handler empties or reloads the list; a changed status re-runs the effect, which reloads it
      activeAlerts := if s || changed then MockActiveAlerts(now) else [];
      if changed {
        recentResponses := MockRecentResponses(now);
        alertTimer := Some(s);
      }
    }

    /**
     * The toggle timeout fires, with the effect loading alerts only while
     * available: going offline leaves the list empty, so the page keeps
     * its invariant.
     */
    method ToggleFires(now: int)
      requires pendingToggles != []
      modifies this
      ensures var s := old(pendingToggles[0]);
        isAvailable == s && !isLoading && pendingToggles == old(pendingToggles[1..])
        && activeAlerts == (if s then MockActiveAlerts(now) else [])
        && recentResponses == (if s != old(isAvailable) then MockRecentResponses(now) else old(recentResponses))
        && alertTimer == (if s != old(isAvailable) then Some(s) else old(alertTimer))
      ensures showNotification == old(showNotification) && currentAlert == old(currentAlert)
      ensures old(Valid()) ==> Valid()
    {
      var s := pendingToggles[0];
      var changed := s != isAvailable;
      pendingToggles := pendingToggles[1..];
      isAvailable := s;
      isLoading := false;
      activeAlerts := if s then MockActiveAlerts(now) else [];
      if changed {
        recentResponses := MockRecentResponses(now);
        alertTimer := Some(s);
      }
    }

    /** The five-second timer fires: the incoming alert is shown only if its effect run saw the volunteer available. */
    method AlertTimerFires(now: int)
      requires alertTimer.Some?
      modifies this
      ensures alertTimer.None?
      ensures old(alertTimer.value) ==> showNotification && currentAlert == Some(IncomingAlert(now))
      ensures !old(alertTimer.value) ==> showNotification == old(showNotification) && currentAlert == old(currentAlert)
      ensures isAvailable == old(isAvailable) && isLoading == old(isLoading) && activeAlerts == old(activeAlerts)
      ensures recentResponses == old(recentResponses) && pendingToggles == old(pendingToggles)
      ensures old(Valid()) ==> Valid()
    {
      var captured := alertTimer.value;
      alertTimer := None;
      if captured {
        currentAlert := Some(IncomingAlert(now));
        showNotification := true;
      }
    }

    /** handleAcceptAlert and handleRejectAlert: the alert with that id leaves the list. */
    method RemoveAlert(alert: DashAlert)
      modifies this
      ensures activeAlerts == Without(old(activeAlerts), alert.id)
      ensures isAvailable == old(isAvailable) && isLoading == old(isLoading) && recentResponses == old(recentResponses)
      ensures showNotification == old(showNotification) && currentAlert == old(currentAlert)
      ensures alertTimer == old(alertTimer) && pendingToggles == old(pendingToggles)
      ensures old(Valid()) ==> Valid()
    {
      activeAlerts := Without(activeAlerts, alert.id);
    }

    /** handleNotificationAccept and handleNotificationReject: hide the overlay, then drop the alert from the list. */
    method NotificationRespond(alert: DashAlert)
      modifies this
      ensures !showNotification && currentAlert.None?
      ensures activeAlerts == Without(old(activeAlerts), alert.id)
      ensures isAvailable == old(isAvailable) && isLoading == old(isLoading) && recentResponses == old(recentResponses)
      ensures alertTimer == old(alertTimer) && pendingToggles == old(pendingToggles)
      ensures old(Valid()) ==> Valid()
    {
      showNotification := false;
      currentAlert := None;
      RemoveAlert(alert);
    }

    /** handleNotificationClose: hide the overlay and forget its alert. */
    method NotificationClose()
      modifies this
      ensures !showNotification && currentAlert.None?
      ensures activeAlerts == old(activeAlerts) && isAvailable == old(isAvailable) && isLoading == old(isLoading)
      ensures recentResponses == old(recentResponses) && alertTimer == old(alertTimer) && pendingToggles == old(pendingToggles)
      ensures old(Valid()) ==> Valid()
    {
      showNotification := false;
      currentAlert := None;
    }
  }

  /** Going offline as written: the list area says unavailable, but the header and the map show all three alerts. */
  method GoOfflineAsWritten(now: int) returns (v: PageView)
    ensures v.body == Unavailable && !v.receivingBadge
    ensures v.alertCount == 3 && v.mapAlerts == MockActiveAlerts(now + 1000)
  {
    var page := new VolunteerPage(now);
    page.AvailabilityToggle(false);
    page.ToggleFiresAsWritten(now + 1000);
    v := page.View();
  }

  /** Going offline with the corrected effect: nothing is counted, plotted or listed, and no alert is raised. */
  method GoOffline(now: int) returns (v: PageView, notified: bool)
    ensures v.body == Unavailable && !v.receivingBadge
    ensures v.alertCount == 0 && v.mapAlerts == []
    ensures !notified
  {
    var page := new VolunteerPage(now);
    page.AvailabilityToggle(false);
    page.ToggleFires(now + 1000);
    v := page.View();
    page.AlertTimerFires(now + 6000);
    notified := page.showNotification;
  }

  /**
   * Online, the incoming alert appears after five seconds; accepting it
   * from the overlay hides the overlay and leaves the three listed alerts,
   * since the incoming alert was never in the list.
   */
  method IncomingAlertAccepted(now: int) returns (shownBefore: bool, shownAfter: bool, listed: nat)
    ensures shownBefore && !shownAfter && listed == 3
  {
    var page := new VolunteerPage(now);
    page.AlertTimerFires(now + 5000);
    shownBefore := page.showNotification;
    MockIds(now);
    WithoutAbsent(page.activeAlerts, IncomingAlert(now + 5000).id);
    page.NotificationRespond(page.currentAlert.value);
    shownAfter := page.showNotification;
    listed := |page.activeAlerts|;
  }
}
