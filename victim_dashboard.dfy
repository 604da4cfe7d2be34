/**
 * The victim dashboard (src/pages/victim-dashboard/index.jsx): sending an
 * alert for the chosen emergency type, the simulated volunteer responses
 * that arrive three seconds later, and cancelling the alert.
 *
 * The three-second timer is a step of its own. As written, cancelling does
 * not clear that timer, so a response step can land after a cancel; the
 * methods named `…AsWritten` keep that behaviour, and the others clear the
 * pending steps on cancel.
 */
module VictimDashboard {
  import opened Common
  import opened JsText
  import opened AlertStatusPanel

  datatype NearbyVolunteer = NearbyVolunteer(id: int, name: string, distance: int)

  /** The volunteers listed on mount (positions left out). */
  const MockNearbyVolunteers: seq<NearbyVolunteer> := [
    NearbyVolunteer(1, "Sarah Johnson", 450), NearbyVolunteer(2, "Mike Chen", 680),
    NearbyVolunteer(3, "Emma Davis", 920), NearbyVolunteer(4, "Alex Rodriguez", 1200),
    NearbyVolunteer(5, "Lisa Thompson", 1450)]

  /** The two responses the delayed step fills in. */
  const MockResponses: seq<VolunteerResponse> := [
    VolunteerResponse("response_1", "Sarah Johnson", 450, 3, "+1-555-1001"),
    VolunteerResponse("response_2", "Mike Chen", 680, 5, "+1-555-1002")]

  /** The alert handleEmergencyAction creates. */
  function NewAlert(alertType: string, now: int, nearby: nat): (a: ActiveAlert)
    ensures a.alertType == Some(alertType) && a.timestamp == Some(now)
    ensures a.status == Some("pending") && a.location == Some("Current location") && a.volunteersNotified == Some(nearby)
    ensures a.id.Some? && |a.id.value| > 6 && a.id.value[..6] == "alert_" && ParseInt(a.id.value[6..]) == Some(now)
  {
    var id := "alert_" + IntStr(now);
    assert id[6..] == IntStr(now);
    ParseIntStr(now);
    ActiveAlert(Some(id), Some(alertType), Some(now), Some("pending"), Some("Current location"), Some(nearby))
  }

  /** `prev => ({ ...prev, status })`: spreading `null` gives a record holding only the status. */
  function WithStatus(prev: Option<ActiveAlert>, status: string): (r: ActiveAlert)
    ensures prev.Some? ==> r == prev.value.(status := Some(status))
    ensures prev.None? ==> r == ActiveAlert(None, None, None, Some(status), None, None)
  {
    match prev
    case Some(a) => a.(status := Some(status))
    case None => ActiveAlert(None, None, None, Some(status), None, None)
  }

  /** A record with every field the dashboard sets. */
  predicate Complete(a: ActiveAlert) {
    a.id.Some? && a.alertType.Some? && a.timestamp.Some? && a.status.Some? && a.location.Some? && a.volunteersNotified.Some?
  }

  class Dashboard {
    var selectedEmergencyType: Option<string>
    var activeAlert: Option<ActiveAlert>
    var isEmergencyActive: bool
    var volunteerResponses: seq<VolunteerResponse>
    var nearbyVolunteers: seq<NearbyVolunteer>
    /** Response steps scheduled and not yet run. */
    var pendingResponses: nat

    /**
     * The emergency is active exactly while there is an alert, the alert
     * is a complete record, responses only exist for an alert, and steps
     * are only pending for one.
     */
    predicate Valid()
      reads this
    {
      (isEmergencyActive <==> activeAlert.Some?)
      && (activeAlert.Some? ==> Complete(activeAlert.value))
      && (|volunteerResponses| > 0 ==> activeAlert.Some?)
      && (pendingResponses > 0 ==> activeAlert.Some?)
    }

    /** The page after its mount effect. */
    constructor ()
      ensures Valid() && selectedEmergencyType.None? && activeAlert.None? && !isEmergencyActive
      ensures volunteerResponses == [] && nearbyVolunteers == MockNearbyVolunteers && pendingResponses == 0
    {
      selectedEmergencyType, activeAlert, isEmergencyActive := None, None, false;
      volunteerResponses, nearbyVolunteers, pendingResponses := [], MockNearbyVolunteers, 0;
    }

    method SelectType(t: string)
      modifies this
      ensures selectedEmergencyType == Some(t)
      ensures activeAlert == old(activeAlert) && isEmergencyActive == old(isEmergencyActive)
      ensures volunteerResponses == old(volunteerResponses) && nearbyVolunteers == old(nearbyVolunteers)
      ensures pendingResponses == old(pendingResponses)
    {
      selectedEmergencyType := Some(t);
    }

    /**
     * handleEmergencyAction: with no type chosen nothing changes; otherwise
     * a pending alert naming the type and the nearby count becomes the
     * active alert and a response step is scheduled.
     */
    method EmergencyAction(now: int)
      modifies this
      ensures old(Valid()) ==> Valid()
      ensures old(selectedEmergencyType).None? || old(selectedEmergencyType).value == "" ==>
                activeAlert == old(activeAlert) && isEmergencyActive == old(isEmergencyActive)
                && pendingResponses == old(pendingResponses)
      ensures old(selectedEmergencyType).Some? && old(selectedEmergencyType).value != "" ==>
                activeAlert == Some(NewAlert(old(selectedEmergencyType).value, now, |nearbyVolunteers|))
                && isEmergencyActive && pendingResponses == old(pendingResponses) + 1
      ensures selectedEmergencyType == old(selectedEmergencyType) && volunteerResponses == old(volunteerResponses)
      ensures nearbyVolunteers == old(nearbyVolunteers)
    {
      if selectedEmergencyType.None? || selectedEmergencyType.value == "" {
        return;
      }
      activeAlert := Some(NewAlert(selectedEmergencyType.value, now, |nearbyVolunteers|));
      isEmergencyActive := true;
      pendingResponses := pendingResponses + 1;
    }

    /**
     * The delayed step as written: it runs once per scheduled send, whatever
     * happened since, filling the responses and setting the status on
     * whatever `activeAlert` now is.
     */
    method ResponseStepAsWritten()
      requires pendingResponses > 0
      modifies this
      ensures volunteerResponses == MockResponses && pendingResponses == old(pendingResponses) - 1
      ensures activeAlert == Some(WithStatus(old(activeAlert), "accepted"))
      ensures isEmergencyActive == old(isEmergencyActive) && selectedEmergencyType == old(selectedEmergencyType)
      ensures nearbyVolunteers == old(nearbyVolunteers)
    {
      volunteerResponses := MockResponses;
      activeAlert := Some(WithStatus(activeAlert, "accepted"));
      pendingResponses := pendingResponses - 1;
    }

    /** handleCancelAlert as written: a confirmed cancel clears the alert, the responses and the type, and leaves the timer running. */
    method CancelAlertAsWritten(confirmed: bool)
      modifies this
      ensures confirmed ==> activeAlert.None? && !isEmergencyActive && volunteerResponses == [] && selectedEmergencyType.None?
      ensures !confirmed ==>
                activeAlert == old(activeAlert) && isEmergencyActive == old(isEmergencyActive)
                && volunteerResponses == old(volunteerResponses) && selectedEmergencyType == old(selectedEmergencyType)
      ensures nearbyVolunteers == old(nearbyVolunteers) && pendingResponses == old(pendingResponses)
    {
      if confirmed {
        activeAlert := None;
        isEmergencyActive := false;
        volunteerResponses := [];
        selectedEmergencyType := None;
      }
    }

    /** The delayed step when cancelling clears it: it runs only while scheduled, and changes only the alert's status, to 'accepted'. */
    method ResponseStep()
      requires Valid()
      modifies this
      ensures Valid()
      ensures old(pendingResponses) == 0 ==>
                activeAlert == old(activeAlert) && volunteerResponses == old(volunteerResponses) && pendingResponses == 0
      ensures old(pendingResponses) > 0 ==>
                volunteerResponses == MockResponses && pendingResponses == old(pendingResponses) - 1
                && activeAlert == Some(old(activeAlert).value.(status := Some("accepted")))
      ensures isEmergencyActive == old(isEmergencyActive) && selectedEmergencyType == old(selectedEmergencyType)
      ensures nearbyVolunteers == old(nearbyVolunteers)
    {
      if pendingResponses > 0 {
        volunteerResponses := MockResponses;
        activeAlert := Some(WithStatus(activeAlert, "accepted"));
        pendingResponses := pendingResponses - 1;
      }
    }

    /** handleCancelAlert clearing the scheduled steps as well. */
    method CancelAlert(confirmed: bool)
      requires Valid()
      modifies this
      ensures Valid()
      ensures confirmed ==>
                activeAlert.None? && !isEmergencyActive && volunteerResponses == []
                && selectedEmergencyType.None? && pendingResponses == 0
      ensures !confirmed ==>
                activeAlert == old(activeAlert) && isEmergencyActive == old(isEmergencyActive)
                && volunteerResponses == old(volunteerResponses) && selectedEmergencyType == old(selectedEmergencyType)
                && pendingResponses == old(pendingResponses)
      ensures nearbyVolunteers == old(nearbyVolunteers)
    {
      if confirmed {
        activeAlert := None;
        isEmergencyActive := false;
        volunteerResponses := [];
        selectedEmergencyType := None;
        pendingResponses := 0;
      }
    }
  }

  /**
   * As written: send, cancel before three seconds, and the step still
   * lands, leaving a status-only alert and two responses on a dashboard
   * that says it is safe.
   */
  method CancelThenStepAsWritten(t: string, now: int) returns (alert: Option<ActiveAlert>, active: bool, responses: nat)
    requires t != ""
    ensures alert == Some(ActiveAlert(None, None, None, Some("accepted"), None, None))
    ensures !active && responses == 2
  {
    var d := new Dashboard();
    d.SelectType(t);
    d.EmergencyAction(now);
    d.CancelAlertAsWritten(true);
    d.ResponseStepAsWritten();
    alert, active, responses := d.activeAlert, d.isEmergencyActive, |d.volunteerResponses|;
  }

  /** The status panel then shows the status-only record: no heading, a `NaN:NaN` clock, the fallback place and count, and two responses. */
  lemma StatusOnlyAlertPanel(now: int)
    ensures var a := ActiveAlert(None, None, None, Some("accepted"), None, None);
      View(a, ElapsedSeconds(a.timestamp, now), MockResponses)
      == PanelView(None, "NaN:NaN", "accepted", "Current location", 0, Some(2))
  {
  }

  /** With the step cleared on cancel, the dashboard stays empty after a cancel. */
  method CancelThenStep(t: string, now: int) returns (alert: Option<ActiveAlert>, active: bool, responses: nat)
    requires t != ""
    ensures alert.None? && !active && responses == 0
  {
    var d := new Dashboard();
    d.SelectType(t);
    d.EmergencyAction(now);
    d.CancelAlert(true);
    d.ResponseStep();
    alert, active, responses := d.activeAlert, d.isEmergencyActive, |d.volunteerResponses|;
  }

  /** Without a cancel, the step accepts the alert that was sent: same id, type, time and place, status 'accepted'. */
  method SendThenStep(t: string, now: int) returns (alert: ActiveAlert, responses: seq<VolunteerResponse>)
    requires t != ""
    ensures alert == NewAlert(t, now, 5).(status := Some("accepted"))
    ensures responses == MockResponses
  {
    var d := new Dashboard();
    d.SelectType(t);
    d.EmergencyAction(now);
    d.ResponseStep();
    alert, responses := d.activeAlert.value, d.volunteerResponses;
  }

  /**
   * As written: send, cancel, send a second alert, and the first send's
   * step lands on the second alert at once, accepting it while that
   * alert's own step is still queued.
   */
  method SendCancelSendAsWritten(first: string, second: string, now: int, later: int)
    returns (alert: Option<ActiveAlert>, queued: nat)
    requires first != "" && second != ""
    ensures alert == Some(NewAlert(second, later, 5).(status := Some("accepted")))
    ensures queued == 1
  {
    var d := new Dashboard();
    d.SelectType(first);
    d.EmergencyAction(now);
    d.CancelAlertAsWritten(true);
    d.SelectType(second);
    d.EmergencyAction(later);
    d.ResponseStepAsWritten();
    alert, queued := d.activeAlert, d.pendingResponses;
  }

  /** With the steps cleared on cancel, the second alert waits for its own step, and that step leaves nothing queued. */
  method SendCancelSend(first: string, second: string, now: int, later: int)
    returns (before: Option<ActiveAlert>, after: Option<ActiveAlert>, queued: nat)
    requires first != "" && second != ""
    ensures before == Some(NewAlert(second, later, 5))
    ensures after == Some(NewAlert(second, later, 5).(status := Some("accepted")))
    ensures queued == 0
  {
    var d := new Dashboard();
    d.SelectType(first);
    d.EmergencyAction(now);
    d.CancelAlert(true);
    d.SelectType(second);
    d.EmergencyAction(later);
    before := d.activeAlert;
    d.ResponseStep();
    after, queued := d.activeAlert, d.pendingResponses;
  }
}
