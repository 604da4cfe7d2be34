/**
 * The safety settings card of the profile page
 * (src/pages/user-profile/components/SafetySettings.jsx): the initial
 * record built from the `settings` prop, the prev-to-next updaters passed
 * to `setSafetySettings`, and the edit / save / cancel flags.
 */
module SafetySettings {
  import opened Common
  import opened SeqUtil

  datatype Hours = Hours(start: string, end: string)

  datatype Settings = Settings(
    availableHours: Hours,
    availableDays: seq<string>,
    emergencyTypes: seq<string>,
    alertFrequency: string,
    autoResponse: bool,
    silentHours: QuietHours)

  /** The `settings` prop: each key may be absent. */
  datatype SettingsProp = SettingsProp(
    availableHours: Option<Hours>,
    availableDays: Option<seq<string>>,
    emergencyTypes: Option<seq<string>>,
    alertFrequency: Option<string>,
    autoResponse: Option<bool>,
    silentHours: Option<QuietHours>)

  const AllDays: seq<string> := ["monday", "tuesday", "wednesday", "thursday", "friday", "saturday", "sunday"]
  const DefaultTypes: seq<string> := ["medical", "fire", "accident", "security"]
  const DefaultHours := Hours("08:00", "22:00")

  /**
   * The record the component starts from (and handleCancel rebuilds): each
   * key first takes `settings.key || default`, then `...settings` is spread
   * over it. Objects and arrays are truthy, so `||` picks the default only
   * for an absent key, an empty frequency string or a false flag.
   */
  function Initial(p: SettingsProp): (s: Settings)
    ensures s.availableHours == p.availableHours.GetOr(DefaultHours)
    ensures s.availableDays == p.availableDays.GetOr(AllDays)
    ensures s.emergencyTypes == p.emergencyTypes.GetOr(DefaultTypes)
    ensures s.alertFrequency == p.alertFrequency.GetOr("all")
    ensures s.autoResponse == p.autoResponse.GetOr(false)
    ensures s.silentHours == p.silentHours.GetOr(DefaultQuietHours)
  {
    var fallback := Settings(
      p.availableHours.GetOr(DefaultHours),
      p.availableDays.GetOr(AllDays),
      p.emergencyTypes.GetOr(DefaultTypes),
      TextOr(p.alertFrequency, "all"),
      p.autoResponse.Some? && p.autoResponse.value,
      p.silentHours.GetOr(DefaultQuietHours));
    Spread(fallback, p)
  }

  /** `{ ...fallback, ...settings }`: every key present in the prop overrides. */
  function Spread(s: Settings, p: SettingsProp): Settings {
    Settings(
      p.availableHours.GetOr(s.availableHours),
      p.availableDays.GetOr(s.availableDays),
      p.emergencyTypes.GetOr(s.emergencyTypes),
      p.alertFrequency.GetOr(s.alertFrequency),
      p.autoResponse.GetOr(s.autoResponse),
      p.silentHours.GetOr(s.silentHours))
  }

  /** An empty prop yields every default. */
  lemma EmptyPropDefaults()
    ensures Initial(SettingsProp(None, None, None, None, None, None))
         == Settings(DefaultHours, AllDays, DefaultTypes, "all", false, DefaultQuietHours)
  {
  }

  /** The changes handleSettingChange is called with: the frequency select and the auto-response box. */
  datatype SettingChange = AlertFrequency(frequency: string) | AutoResponse(on: bool)

  /** handleSettingChange: `{ ...prev, [field]: value }`. */
  function WithSetting(s: Settings, c: SettingChange): (r: Settings)
    ensures c.AlertFrequency? ==> r.alertFrequency == c.frequency && r.(alertFrequency := s.alertFrequency) == s
    ensures c.AutoResponse? ==> r.autoResponse == c.on && r.(autoResponse := s.autoResponse) == s
  {
    match c
    case AlertFrequency(f) => s.(alertFrequency := f)
    case AutoResponse(b) => s.(autoResponse := b)
  }

  /** The five handleTimeChange call sites: start / end of the available hours, and the silent-hours switch, start and end. */
  datatype TimeChange =
    | AvailableStart(time: string) | AvailableEnd(time: string)
    | SilentEnabled(on: bool) | SilentStart(time: string) | SilentEnd(time: string)

  /** handleTimeChange: `{ ...prev, [type]: { ...prev[type], [field]: value } }`. */
  function WithTime(s: Settings, c: TimeChange): (r: Settings)
    ensures r.availableDays == s.availableDays && r.emergencyTypes == s.emergencyTypes
    ensures r.alertFrequency == s.alertFrequency && r.autoResponse == s.autoResponse
    ensures c.AvailableStart? ==> r.availableHours == Hours(c.time, s.availableHours.end) && r.silentHours == s.silentHours
    ensures c.AvailableEnd? ==> r.availableHours == Hours(s.availableHours.start, c.time) && r.silentHours == s.silentHours
    ensures c.SilentEnabled? ==> r.silentHours == s.silentHours.(enabled := c.on) && r.availableHours == s.availableHours
    ensures c.SilentStart? ==> r.silentHours == s.silentHours.(start := c.time) && r.availableHours == s.availableHours
    ensures c.SilentEnd? ==> r.silentHours == s.silentHours.(end := c.time) && r.availableHours == s.availableHours
  {
    match c
    case AvailableStart(t) => s.(availableHours := s.availableHours.(start := t))
    case AvailableEnd(t) => s.(availableHours := s.availableHours.(end := t))
    case SilentEnabled(b) => s.(silentHours := s.silentHours.(enabled := b))
    case SilentStart(t) => s.(silentHours := s.silentHours.(start := t))
    case SilentEnd(t) => s.(silentHours := s.silentHours.(end := t))
  }

  /** `list.includes(x) ? list.filter(d => d !== x) : [...list, x]`. */
  function Toggle(list: seq<string>, x: string): seq<string> {
    if x in list then Filter(list, (d: string) => d != x) else list + [x]
  }

  /** A toggle flips the membership of its item and of nothing else. */
  lemma ToggleMembership(list: seq<string>, x: string, y: string)
    ensures y in Toggle(list, x) <==> (if y == x then x !in list else y in list)
  {
    if x in list {
      FilterMembership(list, (d: string) => d != x, y);
    }
  }

  lemma ToggleMembershipAll(list: seq<string>, x: string)
    ensures forall y :: y in Toggle(list, x) <==> (if y == x then x !in list else y in list)
  {
    forall y ensures y in Toggle(list, x) <==> (if y == x then x !in list else y in list) {
      ToggleMembership(list, x, y);
    }
  }

  /** Unticking removes every copy of the item and keeps the order of the rest. */
  lemma ToggleOffKeepsOrder(list: seq<string>, x: string)
    requires x in list
    ensures IsSubsequence(Toggle(list, x), list) && |Toggle(list, x)| < |list|
  {
    var p := (d: string) => d != x;
    FilterIsSubsequence(list, p);
    FilterMembership(list, p, x);
    FilterShorter(list, p, x);
  }

  lemma {:induction false} FilterShorter(list: seq<string>, p: string -> bool, x: string)
    requires x in list && !p(x)
    ensures |Filter(list, p)| < |list|
  {
    if list[0] != x {
      FilterShorter(list[1..], p, x);
    }
  }

  /** Ticking an absent item appends it; unticking it again gives back the list. */
  lemma ToggleTwiceRestores(list: seq<string>, x: string)
    requires x !in list
    ensures Toggle(list, x) == list + [x]
    ensures Toggle(Toggle(list, x), x) == list
  {
    var p := (d: string) => d != x;
    FilterAppend(list, [x], p);
    FilterAll(list, p);
    assert Filter([x], p) == [];
  }

  /** handleDayToggle. */
  function ToggleDay(s: Settings, day: string): (r: Settings)
    ensures r.(availableDays := s.availableDays) == s
    ensures forall y :: y in r.availableDays <==> (if y == day then day !in s.availableDays else y in s.availableDays)
  {
    ToggleMembershipAll(s.availableDays, day);
    s.(availableDays := Toggle(s.availableDays, day))
  }

  /** handleEmergencyTypeToggle. */
  function ToggleType(s: Settings, t: string): (r: Settings)
    ensures r.(emergencyTypes := s.emergencyTypes) == s
    ensures forall y :: y in r.emergencyTypes <==> (if y == t then t !in s.emergencyTypes else y in s.emergencyTypes)
  {
    ToggleMembershipAll(s.emergencyTypes, t);
    s.(emergencyTypes := Toggle(s.emergencyTypes, t))
  }

  /** The component: the prop it was given, the record being edited and the two flags. */
  class SafetyEditor {
    const prop: SettingsProp
    var settings: Settings
    var isEditing: bool
    var isSaving: bool

    constructor (prop: SettingsProp)
      ensures this.prop == prop && settings == Initial(prop) && !isEditing && !isSaving
    {
      this.prop := prop;
      settings := Initial(prop);
      isEditing, isSaving := false, false;
    }

    /** The Edit button. */
    method StartEditing()
      modifies this
      ensures isEditing && settings == old(settings) && isSaving == old(isSaving)
    {
      isEditing := true;
    }

    method ChangeSetting(c: SettingChange)
      modifies this
      ensures settings == WithSetting(old(settings), c)
      ensures isEditing == old(isEditing) && isSaving == old(isSaving)
    {
      settings := WithSetting(settings, c);
    }

    method ChangeTime(c: TimeChange)
      modifies this
      ensures settings == WithTime(old(settings), c)
      ensures isEditing == old(isEditing) && isSaving == old(isSaving)
    {
      settings := WithTime(settings, c);
    }

    method DayToggle(day: string)
      modifies this
      ensures settings == ToggleDay(old(settings), day)
      ensures isEditing == old(isEditing) && isSaving == old(isSaving)
    {
      settings := ToggleDay(settings, day);
    }

    method EmergencyTypeToggle(t: string)
      modifies this
      ensures settings == ToggleType(old(settings), t)
      ensures isEditing == old(isEditing) && isSaving == old(isSaving)
    {
      settings := ToggleType(settings, t);
    }

    /**
     * handleSave: `onSave` receives the current record; edit mode ends only
     * when it resolves, and `isSaving` is cleared either way.
     */
    method HandleSave(saveSucceeds: bool) returns (sent: Settings)
      modifies this
      ensures sent == settings == old(settings)
      ensures isEditing == (old(isEditing) && !saveSucceeds) && !isSaving
    {
      isSaving := true;
      sent := settings;
      if saveSucceeds {
        isEditing := false;
      }
      isSaving := false;
    }

    /** handleCancel: the record is rebuilt from the prop and edit mode ends. */
    method HandleCancel()
      modifies this
      ensures settings == Initial(prop) && !isEditing && isSaving == old(isSaving)
    {
      settings := Initial(prop);
      isEditing := false;
    }
  }
}
