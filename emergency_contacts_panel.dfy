/**
 * The victim's quick-call contact list
 * (src/pages/victim-dashboard/components/EmergencyContactsPanel.jsx): the
 * two built-in numbers ahead of the caller's contacts, the first four
 * shown while collapsed, and the icon and colour per contact type.
 */
module EmergencyContactsPanel {
  import opened Common
  import opened SeqUtil

  datatype QuickContact = QuickContact(id: string, name: string, phone: string, contactType: string, description: string)

  const DefaultContacts: seq<QuickContact> := [
    QuickContact("911", "Emergency Services", "911", "emergency", "Police, Fire, Medical"),
    QuickContact("poison", "Poison Control", "1-800-222-1222", "medical", "24/7 Poison Help")]

  /** allContacts: the built-ins, then the caller's contacts in their order. */
  function AllContacts(emergencyContacts: seq<QuickContact>): (r: seq<QuickContact>)
    ensures |r| == |emergencyContacts| + 2
    ensures r[0].phone == "911" && r[1].phone == "1-800-222-1222"
    ensures r[2..] == emergencyContacts
  {
    DefaultContacts + emergencyContacts
  }

  /** The contacts on screen: all of them when expanded, the first four (or fewer) when collapsed. */
  function Shown(emergencyContacts: seq<QuickContact>, isExpanded: bool): (r: seq<QuickContact>)
    ensures var all := AllContacts(emergencyContacts);
      |r| <= |all| && r == all[..|r|]
      && (isExpanded ==> r == all)
      && (!isExpanded ==> |r| == if |all| < 4 then |all| else 4)
  {
    var all := AllContacts(emergencyContacts);
    JsSlice(all, 0, if isExpanded then |all| else 4)
  }

  /** The built-in numbers are always on screen, even collapsed. */
  lemma BuiltInsAlwaysShown(emergencyContacts: seq<QuickContact>, isExpanded: bool)
    ensures var r := Shown(emergencyContacts, isExpanded);
      |r| >= 2 && r[0] == DefaultContacts[0] && r[1] == DefaultContacts[1]
  {
  }

  /** Collapsed, the caller's contacts shown are their first two at most. */
  lemma CollapsedShowsTwoOwn(emergencyContacts: seq<QuickContact>)
    ensures var r := Shown(emergencyContacts, false);
      r[2..] == emergencyContacts[..if |emergencyContacts| < 2 then |emergencyContacts| else 2]
  {
  }

  function ContactIcon(contactType: string): (r: string)
    ensures contactType !in {"emergency", "medical", "family", "friend"} ==> r == "Phone"
  {
    match contactType
    case "emergency" => "Phone"
    case "medical" => "Heart"
    case "family" => "Users"
    case "friend" => "User"
    case _ => "Phone"
  }

  function ContactColor(contactType: string): (r: string)
    ensures contactType !in {"emergency", "medical", "family", "friend"} ==> r == "text-muted-foreground"
  {
    match contactType
    case "emergency" => "text-primary"
    case "medical" => "text-success"
    case "family" => "text-accent"
    case "friend" => "text-warning"
    case _ => "text-muted-foreground"
  }

  /** An unknown type gets the emergency icon; only its muted colour tells it apart. */
  lemma UnknownTypeLooksLikeEmergencyIcon(contactType: string)
    requires contactType !in {"emergency", "medical", "family", "friend"}
    ensures ContactIcon(contactType) == ContactIcon("emergency")
    ensures ContactColor(contactType) != ContactColor("emergency")
  {
  }

  /** The second line: the description, or the phone number when there is none. */
  function Subtitle(c: QuickContact): (r: string)
    ensures c.description != "" ==> r == c.description
    ensures c.description == "" ==> r == c.phone
  {
    TextOr(Some(c.description), c.phone)
  }

  /** handleCall: the contact tapped is the one handed to `onCallContact`. */
  function CallTarget(emergencyContacts: seq<QuickContact>, isExpanded: bool, i: nat): (r: Option<QuickContact>)
    ensures r.Some? <==> i < |Shown(emergencyContacts, isExpanded)|
    ensures r.Some? ==> r.value == AllContacts(emergencyContacts)[i]
  {
    var shown := Shown(emergencyContacts, isExpanded);
    if i < |shown| then Some(shown[i]) else None
  }
}
