/**
 * The location preferences card of the profile page
 * (src/pages/user-profile/components/LocationPreferences.jsx). The radius
 * select offers 0.5, 1, 2, 3 and 5 km; it is kept in tenths of a kilometre.
 */
module LocationPreferences {
  import opened Common

  datatype Prefs = Prefs(
    notificationRadius: int,
    shareLocationWithVolunteers: bool,
    shareLocationWithContacts: bool,
    allowLocationHistory: bool,
    preciseLocation: bool,
    locationUpdateFrequency: string)

  /** The `preferences` prop: each key may be absent. */
  datatype PrefsProp = PrefsProp(
    notificationRadius: Option<int>,
    shareLocationWithVolunteers: Option<bool>,
    shareLocationWithContacts: Option<bool>,
    allowLocationHistory: Option<bool>,
    preciseLocation: Option<bool>,
    locationUpdateFrequency: Option<string>)

  /** 2 km. */
  const DefaultRadius := 20

  /**
   * The record the component starts from (and handleCancel rebuilds):
   * `radius || 2`, the flags `?? default`, `frequency || 'realtime'`, and
   * then `...preferences` spread over the result.
   */
  function Initial(p: PrefsProp): (s: Prefs)
    ensures s.notificationRadius == p.notificationRadius.GetOr(DefaultRadius)
    ensures s.shareLocationWithVolunteers == p.shareLocationWithVolunteers.GetOr(true)
    ensures s.shareLocationWithContacts == p.shareLocationWithContacts.GetOr(true)
    ensures s.allowLocationHistory == p.allowLocationHistory.GetOr(false)
    ensures s.preciseLocation == p.preciseLocation.GetOr(true)
    ensures s.locationUpdateFrequency == p.locationUpdateFrequency.GetOr("realtime")
  {
    var fallback := Prefs(
      IntOr(p.notificationRadius, DefaultRadius),
      BoolOrDefault(p.shareLocationWithVolunteers, true),
      BoolOrDefault(p.shareLocationWithContacts, true),
      BoolOrDefault(p.allowLocationHistory, false),
      BoolOrDefault(p.preciseLocation, true),
      TextOr(p.locationUpdateFrequency, "realtime"));
    Spread(fallback, p)
  }

  /** `{ ...fallback, ...preferences }`. */
  function Spread(s: Prefs, p: PrefsProp): Prefs {
    Prefs(
      p.notificationRadius.GetOr(s.notificationRadius),
      p.shareLocationWithVolunteers.GetOr(s.shareLocationWithVolunteers),
      p.shareLocationWithContacts.GetOr(s.shareLocationWithContacts),
      p.allowLocationHistory.GetOr(s.allowLocationHistory),
      p.preciseLocation.GetOr(s.preciseLocation),
      p.locationUpdateFrequency.GetOr(s.locationUpdateFrequency))
  }

  /** A radius of 0 passed in is kept: the spread overrides the `|| 2` fallback. */
  lemma ZeroRadiusKept(p: PrefsProp)
    requires p.notificationRadius == Some(0)
    ensures Initial(p).notificationRadius == 0
  {
  }

  /** What handleSettingChange is called with: the two selects and the four checkboxes. */
  datatype SettingChange =
    | Radius(tenths: int) | UpdateFrequency(frequency: string)
    | ShareWithVolunteers(on: bool) | ShareWithContacts(on: bool)
    | PreciseLocation(on: bool) | LocationHistory(on: bool)

  /** handleSettingChange: `{ ...prev, [field]: value }`. */
  function WithSetting(s: Prefs, c: SettingChange): (r: Prefs)
    ensures r.notificationRadius == (if c.Radius? then c.tenths else s.notificationRadius)
    ensures r.locationUpdateFrequency == (if c.UpdateFrequency? then c.frequency else s.locationUpdateFrequency)
    ensures r.shareLocationWithVolunteers == (if c.ShareWithVolunteers? then c.on else s.shareLocationWithVolunteers)
    ensures r.shareLocationWithContacts == (if c.ShareWithContacts? then c.on else s.shareLocationWithContacts)
    ensures r.preciseLocation == (if c.PreciseLocation? then c.on else s.preciseLocation)
    ensures r.allowLocationHistory == (if c.LocationHistory? then c.on else s.allowLocationHistory)
  {
    match c
    case Radius(t) => s.(notificationRadius := t)
    case UpdateFrequency(f) => s.(locationUpdateFrequency := f)
    case ShareWithVolunteers(b) => s.(shareLocationWithVolunteers := b)
    case ShareWithContacts(b) => s.(shareLocationWithContacts := b)
    case PreciseLocation(b) => s.(preciseLocation := b)
    case LocationHistory(b) => s.(allowLocationHistory := b)
  }

  /** The component: the prop it was given, the record being edited and the two flags. */
  class PreferencesEditor {
    const prop: PrefsProp
    var settings: Prefs
    var isEditing: bool
    var isSaving: bool

    constructor (prop: PrefsProp)
      ensures this.prop == prop && settings == Initial(prop) && !isEditing && !isSaving
    {
      this.prop := prop;
      settings := Initial(prop);
      isEditing, isSaving := false, false;
    }

    /** The Edit button. */
    method StartEditing()
      modifies this
      ensures isEditing && settings == old(settings) && isSaving == old(isSaving)
    {
      isEditing := true;
    }

    method ChangeSetting(c: SettingChange)
      modifies this
      ensures settings == WithSetting(old(settings), c)
      ensures isEditing == old(isEditing) && isSaving == old(isSaving)
    {
      settings := WithSetting(settings, c);
    }

    /** handleSave: `onSave` receives the record; edit mode ends only when it resolves; `isSaving` is cleared either way. */
    method HandleSave(saveSucceeds: bool) returns (sent: Prefs)
      modifies this
      ensures sent == settings == old(settings)
      ensures isEditing == (old(isEditing) && !saveSucceeds) && !isSaving
    {
      isSaving := true;
      sent := settings;
      if saveSucceeds {
        isEditing := false;
      }
      isSaving := false;
    }

    /** handleCancel: the record is rebuilt from the prop and edit mode ends. */
    method HandleCancel()
      modifies this
      ensures settings == Initial(prop) && !isEditing && isSaving == old(isSaving)
    {
      settings := Initial(prop);
      isEditing := false;
    }
  }
}
