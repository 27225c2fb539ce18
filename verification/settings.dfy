/** The settings page: three categories of named settings, each a plain
    object whose values are flags or text. Every switch on the page flips a
    flag and every select writes a text value. */
module Settings {
  import opened Wrappers
  import opened Dict

  datatype Category = Notifications | Privacy | Preferences

  datatype Value = Flag(on: bool) | Text(text: string)

  datatype SettingsState = SettingsState(
    notifications: Dict<Value>, privacy: Dict<Value>, preferences: Dict<Value>)

  /** `settings[category]`. */
  function Section(s: SettingsState, c: Category): Dict<Value> {
    match c
    case Notifications => s.notifications
    case Privacy => s.privacy
    case Preferences => s.preferences
  }

  /** `{ ...s, [category]: d }`. */
  function WithSection(s: SettingsState, c: Category, d: Dict<Value>): (r: SettingsState)
    ensures Section(r, c) == d
    ensures forall c' | c' != c :: Section(r, c') == Section(s, c')
  {
    match c
    case Notifications => s.(notifications := d)
    case Privacy => s.(privacy := d)
    case Preferences => s.(preferences := d)
  }

  /** `settings[category][key]`. */
  function Lookup(s: SettingsState, c: Category, key: string): Option<Value> {
    Get(Section(s, c), key)
  }

  /** JavaScript truthiness of a stored value; a missing one is `undefined`. */
  predicate Truthy(v: Option<Value>) {
    match v
    case None => false
    case Some(Flag(b)) => b
    case Some(Text(t)) => t != ""
  }

  /** The initial settings. */
  const Initial := SettingsState(
    [Entry("newInquiries", Flag(true)), Entry("bookingConfirmations", Flag(true)),
     Entry("sessionReminders", Flag(true)), Entry("paymentUpdates", Flag(true)),
     Entry("emailNotifications", Flag(true)), Entry("pushNotifications", Flag(false))],
    [Entry("profileVisibility", Text("public")), Entry("showOnlineStatus", Flag(true)),
     Entry("allowDirectMessages", Flag(true))],
    [Entry("language", Text("en")), Entry("timezone", Text("America/New_York")),
     Entry("darkMode", Flag(false))])

  /** `toggleSetting(category, key)`: the setting becomes the negation of its
      truthiness; every other setting, in every category, is kept. */
  function ToggleSetting(s: SettingsState, c: Category, key: string): (r: SettingsState)
    ensures Lookup(r, c, key) == Some(Flag(!Truthy(Lookup(s, c, key))))
    ensures forall c', k' | c' != c || k' != key :: Lookup(r, c', k') == Lookup(s, c', k')
    ensures Keys(Section(r, c)) == Keys(Section(s, c)) + {key}
  {
    var d := Section(s, c);
    var r := WithSection(s, c, Set(d, key, Flag(!Truthy(Get(d, key)))));
    forall k' ensures Get(Section(r, c), k') == if k' == key then Some(Flag(!Truthy(Get(d, key)))) else Get(d, k') {
      GetSet(d, key, Flag(!Truthy(Get(d, key))), k');
    }
    r
  }

  /** `updateSetting(category, key, value)`: the setting holds the text;
      every other setting is kept. */
  function UpdateSetting(s: SettingsState, c: Category, key: string, value: string): (r: SettingsState)
    ensures Lookup(r, c, key) == Some(Text(value))
    ensures forall c', k' | c' != c || k' != key :: Lookup(r, c', k') == Lookup(s, c', k')
    ensures Keys(Section(r, c)) == Keys(Section(s, c)) + {key}
  {
    var d := Section(s, c);
    var r := WithSection(s, c, Set(d, key, Text(value)));
    forall k' ensures Get(Section(r, c), k') == if k' == key then Some(Text(value)) else Get(d, k') {
      GetSet(d, key, Text(value), k');
    }
    r
  }

  /** Flipping a flag twice restores the settings exactly, key order
      included. */
  lemma {:induction false} ToggleTwice(s: SettingsState, c: Category, key: string)
    requires Lookup(s, c, key).Some? && Lookup(s, c, key).value.Flag?
    ensures ToggleSetting(ToggleSetting(s, c, key), c, key) == s
  {
    var d := Section(s, c);
    var b := Get(d, key).value.on;
    var once := ToggleSetting(s, c, key);
    assert Section(once, c) == Set(d, key, Flag(!b));
    GetSet(d, key, Flag(!b), key);
    SetSet(d, key, Flag(!b), Flag(b));
    KeysIndex(d, key);
    GetFound(d, key);
    SetSame(d, key);
    assert Section(ToggleSetting(once, c, key), c) == d;
    SectionsDetermine(ToggleSetting(once, c, key), s);
  }

  /** A key `Get` finds is one of the keys. */
  lemma GetFound(d: Dict<Value>, key: string)
    requires Get(d, key).Some?
    ensures key in Keys(d)
  {
  }

  lemma SectionsDetermine(a: SettingsState, b: SettingsState)
    requires forall c :: Section(a, c) == Section(b, c)
    ensures a == b
  {
    assert Section(a, Notifications) == Section(b, Notifications);
    assert Section(a, Privacy) == Section(b, Privacy);
    assert Section(a, Preferences) == Section(b, Preferences);
  }

  /** Which settings the page shows with a switch and which with a select. */
  predicate IsSwitch(c: Category, key: string) {
    match c
    case Notifications =>
      key in {"newInquiries", "bookingConfirmations", "sessionReminders", "emailNotifications", "pushNotifications"}
    case Privacy => key in {"showOnlineStatus", "allowDirectMessages"}
    case Preferences => key == "darkMode"
  }

  predicate IsSelect(c: Category, key: string) {
    match c
    case Notifications => false
    case Privacy => key == "profileVisibility"
    case Preferences => key in {"language", "timezone"}
  }

  /** The page's invariant: every switch reads a flag and every select a
      text value. */
  ghost predicate WellTyped(s: SettingsState) {
    (forall c, key | IsSwitch(c, key) :: Lookup(s, c, key).Some? && Lookup(s, c, key).value.Flag?)
    && (forall c, key | IsSelect(c, key) :: Lookup(s, c, key).Some? && Lookup(s, c, key).value.Text?)
  }

  /** Every entry of a section is what a lookup of its key finds. */
  lemma SectionLookups(s: SettingsState, c: Category)
    requires forall i, j | 0 <= i < j < |Section(s, c)| :: Section(s, c)[i].key != Section(s, c)[j].key
    ensures forall i | 0 <= i < |Section(s, c)| ::
      Lookup(s, c, Section(s, c)[i].key) == Some(Section(s, c)[i].value)
  {
    forall i | 0 <= i < |Section(s, c)|
      ensures Lookup(s, c, Section(s, c)[i].key) == Some(Section(s, c)[i].value)
    {
      GetAt(Section(s, c), i);
    }
  }

  /** The defaults: every notification on except push; a public profile;
      English, New York time, and light mode. */
  lemma InitialDefaults()
    ensures forall key | IsSwitch(Notifications, key) ::
      Lookup(Initial, Notifications, key) == Some(Flag(key != "pushNotifications"))
    ensures Lookup(Initial, Notifications, "paymentUpdates") == Some(Flag(true))
    ensures Lookup(Initial, Privacy, "profileVisibility") == Some(Text("public"))
    ensures Lookup(Initial, Privacy, "showOnlineStatus") == Some(Flag(true))
    ensures Lookup(Initial, Privacy, "allowDirectMessages") == Some(Flag(true))
    ensures Lookup(Initial, Preferences, "language") == Some(Text("en"))
    ensures Lookup(Initial, Preferences, "timezone") == Some(Text("America/New_York"))
    ensures Lookup(Initial, Preferences, "darkMode") == Some(Flag(false))
    ensures WellTyped(Initial)
  {
    NotificationDefaults();
    OtherDefaults();
    forall c, key | IsSwitch(c, key)
      ensures Lookup(Initial, c, key).Some? && Lookup(Initial, c, key).value.Flag?
    {
      match c
      case Notifications =>
      case Privacy =>
        assert key == "showOnlineStatus" || key == "allowDirectMessages";
      case Preferences =>
    }
    forall c, key | IsSelect(c, key)
      ensures Lookup(Initial, c, key).Some? && Lookup(Initial, c, key).value.Text?
    {
      match c
      case Notifications =>
      case Privacy =>
      case Preferences =>
        assert key == "language" || key == "timezone";
    }
  }

  lemma OtherDefaults()
    ensures Lookup(Initial, Privacy, "profileVisibility") == Some(Text("public"))
    ensures Lookup(Initial, Privacy, "showOnlineStatus") == Some(Flag(true))
    ensures Lookup(Initial, Privacy, "allowDirectMessages") == Some(Flag(true))
    ensures Lookup(Initial, Preferences, "language") == Some(Text("en"))
    ensures Lookup(Initial, Preferences, "timezone") == Some(Text("America/New_York"))
    ensures Lookup(Initial, Preferences, "darkMode") == Some(Flag(false))
  {
    SectionLookups(Initial, Privacy);
    SectionLookups(Initial, Preferences);
    var p, q := Section(Initial, Privacy), Section(Initial, Preferences);
    assert p[0].key == "profileVisibility" && p[1].key == "showOnlineStatus" && p[2].key == "allowDirectMessages";
    assert q[0].key == "language" && q[1].key == "timezone" && q[2].key == "darkMode";
  }

  lemma NotificationDefaults()
    ensures forall key | IsSwitch(Notifications, key) ::
      Lookup(Initial, Notifications, key) == Some(Flag(key != "pushNotifications"))
    ensures Lookup(Initial, Notifications, "paymentUpdates") == Some(Flag(true))
  {
    var n := Section(Initial, Notifications);
    SectionLookups(Initial, Notifications);
    assert n[0].key == "newInquiries" && n[1].key == "bookingConfirmations" && n[2].key == "sessionReminders";
    assert n[3].key == "paymentUpdates" && n[4].key == "emailNotifications" && n[5].key == "pushNotifications";
  }

  /** Using a switch or a select keeps the invariant; so a switch always
      flips a flag and toggling twice is always the identity. */
  lemma ControlsKeepWellTyped(s: SettingsState, c: Category, key: string, value: string)
    requires WellTyped(s)
    ensures IsSwitch(c, key) ==> WellTyped(ToggleSetting(s, c, key))
    ensures IsSwitch(c, key) ==> ToggleSetting(ToggleSetting(s, c, key), c, key) == s
    ensures IsSelect(c, key) ==> WellTyped(UpdateSetting(s, c, key, value))
  {
    if IsSwitch(c, key) {
      ToggleTwice(s, c, key);
    }
  }
}
