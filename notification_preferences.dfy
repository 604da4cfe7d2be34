/**
 * The notification preferences card of the profile page
 * (src/pages/user-profile/components/NotificationPreferences.jsx): the
 * initial record built from the `preferences` prop, the two updaters, and
 * the edit / save / cancel flags.
 */
module NotificationPreferences {
  import opened Common

  /** The nine on/off preferences. */
  datatype Flag =
    | EmergencyAlerts | VolunteerResponses | StatusUpdates | CommunityNews
    | SoundEnabled | VibrationEnabled | EmailNotifications | SmsNotifications | PushNotifications

  datatype Prefs = Prefs(flags: Flag -> bool, alertSound: string, quietHours: QuietHours)

  /** The `preferences` prop: each key may be absent. */
  datatype PrefsProp = PrefsProp(flags: Flag -> Option<bool>, alertSound: Option<string>, quietHours: Option<QuietHours>)

  /** The `?? default` of each flag: on, except community news and SMS. */
  function FlagDefault(f: Flag): bool {
    !(f == CommunityNews || f == SmsNotifications)
  }

  /**
   * The record the component starts from (and handleCancel rebuilds): flags
   * take `prop ?? default`, the sound and quiet hours `prop || default`,
   * and then `...preferences` is spread over the result.
   */
  function Initial(p: PrefsProp): (s: Prefs)
    ensures forall f :: s.flags(f) == p.flags(f).GetOr(FlagDefault(f))
    ensures s.alertSound == p.alertSound.GetOr("emergency")
    ensures s.quietHours == p.quietHours.GetOr(DefaultQuietHours)
  {
    var pf := p.flags;
    var fallback := Prefs(
      (f: Flag) => BoolOrDefault(pf(f), FlagDefault(f)),
      TextOr(p.alertSound, "emergency"),
      p.quietHours.GetOr(DefaultQuietHours));
    Spread(fallback, p)
  }

  /** `{ ...fallback, ...preferences }`. */
  function Spread(s: Prefs, p: PrefsProp): Prefs {
    var sf, pf := s.flags, p.flags;
    Prefs((f: Flag) => pf(f).GetOr(sf(f)), p.alertSound.GetOr(s.alertSound), p.quietHours.GetOr(s.quietHours))
  }

  /** With nothing passed in, only community news and SMS are off, the siren is chosen and quiet hours are off. */
  lemma EmptyPropDefaults()
    ensures var s := Initial(PrefsProp((f: Flag) => None, None, None));
      (forall f :: s.flags(f) <==> f != CommunityNews && f != SmsNotifications)
      && s.alertSound == "emergency" && s.quietHours == DefaultQuietHours
  {
  }

  /** What handleSettingChange is called with: a checkbox or the sound select. */
  datatype SettingChange = SetFlag(flag: Flag, on: bool) | SetAlertSound(sound: string)

  /** handleSettingChange: `{ ...prev, [field]: value }`. */
  function WithSetting(s: Prefs, c: SettingChange): (r: Prefs)
    ensures r.quietHours == s.quietHours
    ensures c.SetFlag? ==> r.flags(c.flag) == c.on && r.alertSound == s.alertSound
    ensures forall f | !(c.SetFlag? && f == c.flag) :: r.flags(f) == s.flags(f)
    ensures c.SetAlertSound? ==> r.alertSound == c.sound
  {
    match c
    case SetFlag(g, b) =>
      var sf := s.flags;
      s.(flags := (f: Flag) => if f == g then b else sf(f))
    case SetAlertSound(a) => s.(alertSound := a)
  }

  /** What handleQuietHoursChange is called with: the switch, or a start or end time. */
  datatype QuietChange = QuietEnabled(on: bool) | QuietStart(time: string) | QuietEnd(time: string)

  /** handleQuietHoursChange: `{ ...prev, quietHours: { ...prev.quietHours, [field]: value } }`. */
  function WithQuietHours(s: Prefs, c: QuietChange): (r: Prefs)
    ensures r.flags == s.flags && r.alertSound == s.alertSound
    ensures r.quietHours.enabled == (if c.QuietEnabled? then c.on else s.quietHours.enabled)
    ensures r.quietHours.start == (if c.QuietStart? then c.time else s.quietHours.start)
    ensures r.quietHours.end == (if c.QuietEnd? then c.time else s.quietHours.end)
  {
    match c
    case QuietEnabled(b) => s.(quietHours := s.quietHours.(enabled := b))
    case QuietStart(t) => s.(quietHours := s.quietHours.(start := t))
    case QuietEnd(t) => s.(quietHours := s.quietHours.(end := t))
  }

  /** Setting a flag to the value it has changes nothing observable. */
  lemma SetFlagSame(s: Prefs, f: Flag)
    ensures forall g :: WithSetting(s, SetFlag(f, s.flags(f))).flags(g) == s.flags(g)
  {
  }

  /** The component: the prop it was given, the record being edited and the two flags. */
  class PreferencesEditor {
    const prop: PrefsProp
    var settings: Prefs
    var isEditing: bool
    var isSaving: bool

    constructor (prop: PrefsProp)
      ensures this.prop == prop && settings == Initial(prop) && !isEditing && !isSaving
    {
      this.prop := prop;
      settings := Initial(prop);
      isEditing, isSaving := false, false;
    }

    /** The Edit button. */
    method StartEditing()
      modifies this
      ensures isEditing && settings == old(settings) && isSaving == old(isSaving)
    {
      isEditing := true;
    }

    method ChangeSetting(c: SettingChange)
      modifies this
      ensures settings == WithSetting(old(settings), c)
      ensures isEditing == old(isEditing) && isSaving == old(isSaving)
    {
      settings := WithSetting(settings, c);
    }

    method ChangeQuietHours(c: QuietChange)
      modifies this
      ensures settings == WithQuietHours(old(settings), c)
      ensures isEditing == old(isEditing) && isSaving == old(isSaving)
    {
      settings := WithQuietHours(settings, c);
    }

    /** handleSave: `onSave` receives the record; edit mode ends only when it resolves; `isSaving` is cleared either way. */
    method HandleSave(saveSucceeds: bool) returns (sent: Prefs)
      modifies this
      ensures sent == settings == old(settings)
      ensures isEditing == (old(isEditing) && !saveSucceeds) && !isSaving
    {
      isSaving := true;
      sent := settings;
      if saveSucceeds {
        isEditing := false;
      }
      isSaving := false;
    }

    /** handleCancel: the record is rebuilt from the prop and edit mode ends. */
    method HandleCancel()
      modifies this
      ensures settings == Initial(prop) && !isEditing && isSaving == old(isSaving)
    {
      settings := Initial(prop);
      isEditing := false;
    }
  }
}
