/**
 * The role badge in the header (src/components/ui/RoleStatusIndicator.jsx):
 * the label, icon and colours for the role, the status text and dot, and
 * the availability toggle offered to volunteers.
 */
module RoleStatus {
  import opened Common

  /** The component's props once the destructuring defaults are in place. */
  datatype Props = Props(userRole: string, isAvailable: bool, emergencyStatus: bool, showToggle: bool)

  /** The props as the parent passes them; `None` is a prop left undefined. */
  datatype PassedProps = PassedProps(
    userRole: Option<string>, isAvailable: Option<bool>, emergencyStatus: Option<bool>, showToggle: Option<bool>)

  /** The destructuring defaults: a volunteer, available, with no emergency, and the toggle shown. */
  function WithDefaults(q: PassedProps): (p: Props)
    ensures p.userRole == (if q.userRole.Some? then q.userRole.value else "volunteer")
    ensures p.isAvailable <==> q.isAvailable != Some(false)
    ensures p.emergencyStatus <==> q.emergencyStatus == Some(true)
    ensures p.showToggle <==> q.showToggle != Some(false)
  {
    Props(q.userRole.GetOr("volunteer"), q.isAvailable.GetOr(true), q.emergencyStatus.GetOr(false), q.showToggle.GetOr(true))
  }

  datatype RoleConfig = RoleConfig(roleLabel: string, icon: string, color: string, bgColor: string)

  /** Whether the role's status is the highlighted one: an active emergency for a victim, availability for anyone else. */
  function Highlighted(p: Props): bool {
    if p.userRole == "victim" then p.emergencyStatus else p.isAvailable
  }

  /** getRoleConfig. */
  function RoleConfigFor(p: Props): (c: RoleConfig)
    ensures p.userRole == "victim" ==> c.roleLabel == "Help Seeker" && c.icon == "User"
    ensures p.userRole == "volunteer" ==> c.roleLabel == "Volunteer" && c.icon == "Heart"
    ensures p.userRole != "victim" && p.userRole != "volunteer" ==>
              c == RoleConfig("User", "User", "text-muted-foreground", "bg-muted")
    ensures p.userRole == "victim" || p.userRole == "volunteer" ==>
              (c.color == "text-muted-foreground" <==> !Highlighted(p)) && (c.bgColor == "bg-muted" <==> !Highlighted(p))
  {
    match p.userRole
    case "victim" =>
      RoleConfig("Help Seeker", "User",
        if p.emergencyStatus then "text-primary" else "text-muted-foreground",
        if p.emergencyStatus then "bg-primary/10" else "bg-muted")
    case "volunteer" =>
      RoleConfig("Volunteer", "Heart",
        if p.isAvailable then "text-success" else "text-muted-foreground",
        if p.isAvailable then "bg-success/10" else "bg-muted")
    case _ => RoleConfig("User", "User", "text-muted-foreground", "bg-muted")
  }

  /** getStatusText: the victim's emergency state, or everyone else's availability. */
  function StatusText(p: Props): (s: string)
    ensures p.userRole == "victim" ==> s == (if p.emergencyStatus then "Emergency Active" else "Safe")
    ensures p.userRole != "victim" ==> s == (if p.isAvailable then "Available" else "Unavailable")
  {
    if p.userRole == "victim" then (if p.emergencyStatus then "Emergency Active" else "Safe")
    else (if p.isAvailable then "Available" else "Unavailable")
  }

  /** getStatusDot. */
  function StatusDot(p: Props): (s: string)
    ensures p.userRole == "victim" ==> s == (if p.emergencyStatus then "bg-primary animate-pulse-emergency" else "bg-success")
    ensures p.userRole != "victim" ==> s == (if p.isAvailable then "bg-success" else "bg-muted-foreground")
  {
    if p.userRole == "victim" then (if p.emergencyStatus then "bg-primary animate-pulse-emergency" else "bg-success")
    else (if p.isAvailable then "bg-success" else "bg-muted-foreground")
  }

  /** The text and the dot follow the same split: the text names the state the dot colours. */
  lemma TextAndDotAgree(p: Props)
    ensures StatusText(p) in {"Safe", "Available"} <==> StatusDot(p) == "bg-success"
    ensures StatusText(p) == "Emergency Active" <==> StatusDot(p) == "bg-primary animate-pulse-emergency"
    ensures StatusText(p) == "Unavailable" <==> StatusDot(p) == "bg-muted-foreground"
  {
  }

  /** handleToggle: the value passed to `onStatusToggle`, only for a volunteer with the toggle shown. */
  function Toggle(p: Props): (r: Option<bool>)
    ensures r.Some? <==> p.showToggle && p.userRole == "volunteer"
    ensures r.Some? ==> r.value == !p.isAvailable
  {
    if p.showToggle && p.userRole == "volunteer" then Some(!p.isAvailable) else None
  }

  /** When the parent applies the toggled value, the status text flips between 'Available' and 'Unavailable'. */
  lemma ToggleFlipsStatus(p: Props)
    requires Toggle(p).Some?
    ensures var q := p.(isAvailable := Toggle(p).value);
      StatusText(q) != StatusText(p) && StatusText(q) in {"Available", "Unavailable"}
      && Toggle(q) == Some(p.isAvailable)
  {
  }

  /** With no props the badge is an available volunteer, green, with a toggle that would turn availability off. */
  lemma DefaultBadge()
    ensures var p := WithDefaults(PassedProps(None, None, None, None));
      RoleConfigFor(p) == RoleConfig("Volunteer", "Heart", "text-success", "bg-success/10")
      && StatusText(p) == "Available" && StatusDot(p) == "bg-success" && Toggle(p) == Some(false)
  {
  }
}
