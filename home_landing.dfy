/**
 * The landing page (src/pages/home-landing/index.jsx): the SOS button and
 * the role buttons, which ask for the location first when none is known,
 * the location prompt's outcome, and the role given to an anonymous user
 * after an SOS alert goes out.
 *
 * Navigation is the route a handler returns; `None` means it stays on the
 * page. Browser storage, the geolocation lookup and the `alert` pop-ups are
 * not modelled.
 */
module HomeLanding {
  import opened Common
  import opened SosModal

  /** Where a role button leads: the victim and volunteer dashboards need a known location, sign-in and sign-up share a page. */
  function RoleRoute(role: string, hasLocation: bool): (r: Option<string>)
    ensures role == "login" || role == "register" ==> r == Some("/login-register")
    ensures role == "victim" ==> r == (if hasLocation then Some("/victim-dashboard") else None)
    ensures role == "volunteer" ==> r == (if hasLocation then Some("/volunteer-dashboard") else None)
    ensures role !in {"victim", "volunteer", "login", "register"} ==> r.None?
  {
    match role
    case "victim" => if hasLocation then Some("/victim-dashboard") else None
    case "volunteer" => if hasLocation then Some("/volunteer-dashboard") else None
    case "login" => Some("/login-register")
    case "register" => Some("/login-register")
    case _ => None
  }

  /** A role button asks for the location exactly when it leads to a dashboard and no location is known. */
  predicate NeedsLocation(role: string, hasLocation: bool) {
    (role == "victim" || role == "volunteer") && !hasLocation
  }

  /** Every role button either leads somewhere, asks for the location, or is an unknown role. */
  lemma RoleButtonOutcomes(role: string, hasLocation: bool)
    ensures RoleRoute(role, hasLocation).Some? || NeedsLocation(role, hasLocation)
            || role !in {"victim", "volunteer", "login", "register"}
    ensures !(RoleRoute(role, hasLocation).Some? && NeedsLocation(role, hasLocation))
  {
  }

  class LandingPage {
    var showLocationPrompt: bool
    var showSosModal: bool
    var userLocation: Option<Location>
    var userRole: Option<string>
    /**
     * Set when the SOS button had to ask for the location first, so that a
     * granted location opens the SOS dialog (see `LocationGranted`).
     */
    var sosPending: bool

    /** The page as it mounts: the role saved by an earlier visit, if any and non-empty. */
    constructor (savedRole: Option<string>)
      ensures !showLocationPrompt && !showSosModal && userLocation.None? && !sosPending
      ensures userRole == (if savedRole.Some? && savedRole.value != "" then savedRole else None)
    {
      showLocationPrompt, showSosModal, userLocation, sosPending := false, false, None, false;
      userRole := if savedRole.Some? && savedRole.value != "" then savedRole else None;
    }

    /** The position found on mount when permission was already granted. */
    method PositionFound(location: Location)
      modifies this
      ensures userLocation == Some(location)
      ensures showLocationPrompt == old(showLocationPrompt) && showSosModal == old(showSosModal)
      ensures userRole == old(userRole) && sosPending == old(sosPending)
    {
      userLocation := Some(location);
    }

    /** handleSOSClick: the SOS dialog with a known location, the location prompt without one. */
    method SosClick()
      modifies this
      ensures old(userLocation).Some? ==> showSosModal && showLocationPrompt == old(showLocationPrompt) && sosPending == old(sosPending)
      ensures old(userLocation).None? ==> showLocationPrompt && showSosModal == old(showSosModal) && sosPending
      ensures userLocation == old(userLocation) && userRole == old(userRole)
    {
      if userLocation.None? {
        showLocationPrompt := true;
        sosPending := true;
      } else {
        showSosModal := true;
      }
    }

    /** handleRoleSelect. */
    method RoleSelect(role: string) returns (route: Option<string>)
      modifies this
      ensures route == RoleRoute(role, old(userLocation).Some?)
      ensures showLocationPrompt == (old(showLocationPrompt) || NeedsLocation(role, old(userLocation).Some?))
      ensures showSosModal == old(showSosModal) && userLocation == old(userLocation)
      ensures userRole == old(userRole) && sosPending == old(sosPending)
    {
      route := None;
      match role {
        case "victim" =>
          if userLocation.None? {
            showLocationPrompt := true;
          } else {
            route := Some("/victim-dashboard");
          }
        case "volunteer" =>
          if userLocation.None? {
            showLocationPrompt := true;
          } else {
            route := Some("/volunteer-dashboard");
          }
        case "login" =>
          route := Some("/login-register");
        case "register" =>
          route := Some("/login-register");
        case _ =>
      }
    }

    /**
     * handleLocationPermissionGranted as written: the location is stored and
     * the prompt hidden, and the SOS dialog stays as it was, so an SOS click
     * that had to ask for the location does not open the dialog.
     */
    method LocationGrantedAsWritten(location: Location)
      modifies this
      ensures userLocation == Some(location) && !showLocationPrompt
      ensures showSosModal == old(showSosModal) && userRole == old(userRole) && sosPending == old(sosPending)
    {
      userLocation := Some(location);
      showLocationPrompt := false;
    }

    /**
     * handleLocationPermissionGranted as its comment intends: the location
     * is stored, the prompt hidden, and the SOS dialog opens if the SOS
     * button asked for the location.
     */
    method LocationGranted(location: Location)
      modifies this
      ensures userLocation == Some(location) && !showLocationPrompt && !sosPending
      ensures showSosModal == (old(showSosModal) || old(sosPending))
      ensures userRole == old(userRole)
    {
      userLocation := Some(location);
      showLocationPrompt := false;
      if sosPending {
        showSosModal := true;
      }
      sosPending := false;
    }

    /** handleLocationPermissionDenied, and the prompt's close button: the prompt goes away and nothing else changes. */
    method LocationDenied()
      modifies this
      ensures !showLocationPrompt && !sosPending
      ensures showSosModal == old(showSosModal) && userLocation == old(userLocation) && userRole == old(userRole)
    {
      showLocationPrompt := false;
      sosPending := false;
    }

    /** The SOS dialog's close button. */
    method CloseSosModal()
      modifies this
      ensures !showSosModal
      ensures showLocationPrompt == old(showLocationPrompt) && userLocation == old(userLocation)
      ensures userRole == old(userRole) && sosPending == old(sosPending)
    {
      showSosModal := false;
    }

    /**
     * handleSendAlert: a visitor with no role becomes a victim and is taken
     * to the victim dashboard; a visitor with a role keeps it and stays.
     */
    method SendAlert(alertData: AlertData) returns (route: Option<string>)
      modifies this
      ensures old(userRole).None? ==> userRole == Some("victim") && route == Some("/victim-dashboard")
      ensures old(userRole).Some? ==> userRole == old(userRole) && route.None?
      ensures showLocationPrompt == old(showLocationPrompt) && showSosModal == old(showSosModal)
      ensures userLocation == old(userLocation) && sosPending == old(sosPending)
    {
      if userRole.None? {
        userRole := Some("victim");
        route := Some("/victim-dashboard");
      } else {
        route := None;
      }
    }
  }

  /** As written: SOS without a location, then granting it, leaves the SOS dialog closed. */
  method SosThenGrantAsWritten(location: Location) returns (dialogOpen: bool, promptOpen: bool)
    ensures !dialogOpen && !promptOpen
  {
    var page := new LandingPage(None);
    page.SosClick();
    page.LocationGrantedAsWritten(location);
    dialogOpen, promptOpen := page.showSosModal, page.showLocationPrompt;
  }

  /** As intended: SOS without a location, then granting it, opens the SOS dialog. */
  method SosThenGrant(location: Location) returns (dialogOpen: bool, promptOpen: bool)
    ensures dialogOpen && !promptOpen
  {
    var page := new LandingPage(None);
    page.SosClick();
    page.LocationGranted(location);
    dialogOpen, promptOpen := page.showSosModal, page.showLocationPrompt;
  }

  /**
   * An anonymous visitor with a known location: SOS opens the dialog, the
   * countdown runs out on its fifth tick, and the alert sent takes the
   * visitor to the victim dashboard as a victim.
   */
  method AnonymousSosFlow(location: Location, alertType: string, now: int) returns (route: Option<string>, role: Option<string>, sent: AlertData)
    requires alertType != ""
    ensures route == Some("/victim-dashboard") && role == Some("victim")
    ensures sent.location == location && sent.alertType == alertType && sent.status == "active"
  {
    var page := new LandingPage(None);
    page.PositionFound(location);
    page.SosClick();
    var dialog := new SosDialog();
    dialog.Open();
    dialog.SelectType(alertType);
    var started := dialog.StartCountdown(page.userLocation, now);
    var i := 0;
    var last: Option<AlertData> := None;
    while i < 5
      invariant 0 <= i <= 5 && dialog.Valid()
      invariant dialog.State() == Run(Countdown(true, 5), i)
      invariant dialog.selectedType == alertType && page.userLocation == Some(location) && page.userRole.None?
      invariant last.Some? <==> i == 5
      invariant last.Some? ==> last.value == Payload(alertType, dialog.urgencyLevel, dialog.additionalInfo, Some(location), now)
    {
      SendsExactlyOnce(5, i);
      SendsExactlyOnce(5, i + 1);
      last := dialog.Tick(page.userLocation, now);
      i := i + 1;
    }
    sent := last.value;
    route := page.SendAlert(sent);
    role := page.userRole;
  }
}
