/**
 * The profile page (src/pages/user-profile/index.jsx): the state slices it
 * owns, the tab switch, the role switch, and the save handlers its cards
 * call. Each handler raises `isSaving`, replaces its slice and lowers the
 * flag again; the simulated one-second delay is not modelled, and the
 * delayed navigation is returned as the route it targets.
 */
module UserProfile {
  import opened Common
  import Contacts = EmergencyContactsSection
  import Location = LocationPreferences
  import Safety = SafetySettings
  import Notifications = NotificationPreferences
  import Security = AccountSecurity
  import Personal = PersonalInfoForm

  datatype Profile = Profile(
    id: int,
    name: string,
    email: string,
    phone: string,
    address: string,
    dateOfBirth: string,
    emergencyMedicalInfo: string,
    role: string,
    verified: bool)

  datatype SecuritySettings = SecuritySettings(twoFactorEnabled: bool, lastPasswordChange: string)

  datatype Tab = PersonalTab | ContactsTab | LocationTab | SafetyTab | SecurityTab | NotificationsTab

  const TabIds: seq<string> := ["personal", "contacts", "location", "safety", "security", "notifications"]

  /** renderTabContent: the card shown for a tab id, none (`null`) for an id outside the six. */
  function TabContent(activeTab: string): (r: Option<Tab>)
    ensures r.None? <==> activeTab !in TabIds
  {
    match activeTab
    case "personal" => Some(PersonalTab)
    case "contacts" => Some(ContactsTab)
    case "location" => Some(LocationTab)
    case "safety" => Some(SafetyTab)
    case "security" => Some(SecurityTab)
    case "notifications" => Some(NotificationsTab)
    case _ => None
  }

  /** handleRoleSwitch: 'victim' becomes 'volunteer', every other role becomes 'victim'. */
  function SwitchedRole(role: string): (r: string)
    ensures r == "victim" || r == "volunteer"
    ensures r != role || role !in {"victim", "volunteer"}
  {
    if role == "victim" then "volunteer" else "victim"
  }

  /** The dashboard of a role: the victim's for 'victim', the volunteer's for any other. */
  function DashboardFor(role: string): string {
    if role == "victim" then "/victim-dashboard" else "/volunteer-dashboard"
  }

  /** Switching twice from one of the two roles returns to it. */
  lemma SwitchTwice(role: string)
    requires role == "victim" || role == "volunteer"
    ensures SwitchedRole(SwitchedRole(role)) == role
  {
  }

  /** The six fields of the profile the personal-information card edits. */
  function FieldsOf(u: Profile): Personal.UserFields {
    Personal.UserFields(Some(u.name), Some(u.email), Some(u.phone), Some(u.address), Some(u.dateOfBirth), Some(u.emergencyMedicalInfo))
  }

  /** `{ ...prev, ...formData }`: the six form fields overwrite the profile's, the rest stays. */
  function WithForm(u: Profile, d: Personal.FormData): (r: Profile)
    ensures r.id == u.id && r.role == u.role && r.verified == u.verified
    ensures Personal.FromUser(Some(FieldsOf(r))) == d
  {
    u.(name := d.name, email := d.email, phone := d.phone, address := d.address,
       dateOfBirth := d.dateOfBirth, emergencyMedicalInfo := d.emergencyMedicalInfo)
  }

  /** A stored slice as the card's prop: every key present. */
  function LocationProp(s: Location.Prefs): Location.PrefsProp {
    Location.PrefsProp(Some(s.notificationRadius), Some(s.shareLocationWithVolunteers), Some(s.shareLocationWithContacts),
                       Some(s.allowLocationHistory), Some(s.preciseLocation), Some(s.locationUpdateFrequency))
  }

  function SafetyProp(s: Safety.Settings): Safety.SettingsProp {
    Safety.SettingsProp(Some(s.availableHours), Some(s.availableDays), Some(s.emergencyTypes),
                        Some(s.alertFrequency), Some(s.autoResponse), Some(s.silentHours))
  }

  function NotificationProp(s: Notifications.Prefs): Notifications.PrefsProp {
    var fs := s.flags;
    Notifications.PrefsProp((f: Notifications.Flag) => Some(fs(f)), Some(s.alertSound), Some(s.quietHours))
  }

  /** A saved location record comes back unchanged as the card's starting state when the page passes it down again. */
  lemma LocationRoundTrip(s: Location.Prefs)
    ensures Location.Initial(LocationProp(s)) == s
  {
  }

  /** The same for the safety settings, even a false auto-response or an empty frequency. */
  lemma SafetyRoundTrip(s: Safety.Settings)
    ensures Safety.Initial(SafetyProp(s)) == s
  {
  }

  /** The same for the notification preferences, flag by flag. */
  lemma NotificationRoundTrip(s: Notifications.Prefs)
    ensures var r := Notifications.Initial(NotificationProp(s));
      (forall f :: r.flags(f) == s.flags(f)) && r.alertSound == s.alertSound && r.quietHours == s.quietHours
  {
  }

  /** handleSecuritySave: what a security update does to the page's security slice. */
  function WithSecurity(s: SecuritySettings, data: Security.SecurityUpdate): (r: SecuritySettings)
    ensures data.PasswordUpdate? ==> r == s.(lastPasswordChange := "Just now")
    ensures data.TwoFactorUpdate? ==> r == s.(twoFactorEnabled := data.enabled)
    ensures data.RevokeSession? ==> r == s
  {
    match data
    case PasswordUpdate(_) => s.(lastPasswordChange := "Just now")
    case TwoFactorUpdate(on) => s.(twoFactorEnabled := on)
    case RevokeSession(_) => s
  }

  /** The page's starting profile (the avatar and the stats block are not modelled). */
  const SampleUser := Profile(1, "Sarah Johnson", "sarah.johnson@email.com", "+1 (555) 123-4567",
                              "123 Oak Street, Springfield, IL 62701", "1990-05-15",
                              "Type 1 Diabetes, carries insulin pen", "victim", true)

  const SampleContacts: seq<Contacts.ContactData> := [
    Contacts.ContactData(1, "Michael Johnson", "spouse", "+1 (555) 987-6543", true),
    Contacts.ContactData(2, "Emma Johnson", "parent", "+1 (555) 456-7890", false)]

  /** 2 km, everything shared except the location history, real-time updates. */
  const InitialLocation := Location.Prefs(Location.DefaultRadius, true, true, false, true, "realtime")

  /** The page starts with quiet (and silent) hours switched on, unlike the cards' own fallback. */
  const PageQuietHours := QuietHours(true, "22:00", "08:00")

  const InitialSafety := Safety.Settings(Safety.DefaultHours, Safety.AllDays, Safety.DefaultTypes, "all", false, PageQuietHours)

  const InitialSecurity := SecuritySettings(false, "2 months ago")

  /** Every flag on except community news and SMS, the siren, quiet hours on. */
  const InitialNotifications := Notifications.Prefs(Notifications.FlagDefault, "emergency", PageQuietHours)

  class ProfilePage {
    var activeTab: string
    var user: Profile
    var emergencyContacts: seq<Contacts.ContactData>
    var locationPreferences: Location.Prefs
    var safetySettings: Safety.Settings
    var securitySettings: SecuritySettings
    var notificationPreferences: Notifications.Prefs
    var isSaving: bool

    /** The page as it mounts: the personal tab and the sample slices, nothing saving. */
    constructor ()
      ensures activeTab == "personal" && TabContent(activeTab) == Some(PersonalTab)
      ensures user == SampleUser && emergencyContacts == SampleContacts
      ensures locationPreferences == InitialLocation && safetySettings == InitialSafety
      ensures securitySettings == InitialSecurity && notificationPreferences == InitialNotifications
      ensures !isSaving
    {
      activeTab := "personal";
      user := SampleUser;
      emergencyContacts := SampleContacts;
      locationPreferences := InitialLocation;
      safetySettings := InitialSafety;
      securitySettings := InitialSecurity;
      notificationPreferences := InitialNotifications;
      isSaving := false;
    }

    /** A tab button: only the active tab changes. */
    method SelectTab(id: string)
      modifies this`activeTab
      ensures activeTab == id
    {
      activeTab := id;
    }

    /** handleRoleSwitch: the role flips and the page later goes to the new role's dashboard. */
    method RoleSwitch() returns (route: string)
      modifies this`user, this`isSaving
      ensures user == old(user).(role := SwitchedRole(old(user).role))
      ensures route == DashboardFor(user.role)
      ensures !isSaving
    {
      isSaving := true;
      var newRole := SwitchedRole(user.role);
      user := user.(role := newRole);
      route := DashboardFor(newRole);
      isSaving := false;
    }

    /** handlePersonalInfoSave: the profile takes the form; every other slice is left alone. */
    method PersonalInfoSave(formData: Personal.FormData)
      modifies this`user, this`isSaving
      ensures user == WithForm(old(user), formData) && !isSaving
    {
      isSaving := true;
      user := WithForm(user, formData);
      isSaving := false;
    }

    method EmergencyContactsSave(contacts: seq<Contacts.ContactData>)
      modifies this`emergencyContacts, this`isSaving
      ensures emergencyContacts == contacts && !isSaving
    {
      isSaving := true;
      emergencyContacts := contacts;
      isSaving := false;
    }

    method LocationPreferencesSave(preferences: Location.Prefs)
      modifies this`locationPreferences, this`isSaving
      ensures locationPreferences == preferences && !isSaving
    {
      isSaving := true;
      locationPreferences := preferences;
      isSaving := false;
    }

    method SafetySettingsSave(settings: Safety.Settings)
      modifies this`safetySettings, this`isSaving
      ensures safetySettings == settings && !isSaving
    {
      isSaving := true;
      safetySettings := settings;
      isSaving := false;
    }

    method SecuritySave(data: Security.SecurityUpdate)
      modifies this`securitySettings, this`isSaving
      ensures securitySettings == WithSecurity(old(securitySettings), data) && !isSaving
    {
      isSaving := true;
      securitySettings := WithSecurity(securitySettings, data);
      isSaving := false;
    }

    method NotificationPreferencesSave(preferences: Notifications.Prefs)
      modifies this`notificationPreferences, this`isSaving
      ensures notificationPreferences == preferences && !isSaving
    {
      isSaving := true;
      notificationPreferences := preferences;
      isSaving := false;
    }
  }

  /**
   * Each save handler touches only its own slice: saving the contacts and
   * then the security settings leaves the profile, the tab and the other
   * slices as the page started.
   */
  method SavesTouchOnlyTheirSlice(contacts: seq<Contacts.ContactData>, data: Security.SecurityUpdate)
    returns (page: ProfilePage)
    ensures fresh(page)
    ensures page.user == SampleUser && page.activeTab == "personal" && !page.isSaving
    ensures page.emergencyContacts == contacts && page.securitySettings == WithSecurity(InitialSecurity, data)
    ensures page.locationPreferences == InitialLocation && page.safetySettings == InitialSafety
    ensures page.notificationPreferences == InitialNotifications
  {
    page := new ProfilePage();
    page.EmergencyContactsSave(contacts);
    page.SecuritySave(data);
  }
}
