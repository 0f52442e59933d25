/**
 * The settings page (app/dashboard/settings/page.tsx): the nested settings record, the
 * switches that negate one boolean setting, the selects that replace one text setting,
 * and the tabs that choose which panel is shown.
 */
module SettingsPage {
  import opened SeqFilter

  datatype Notifications = Notifications(email: bool, push: bool, transactions: bool, marketing: bool, security: bool)
  datatype Appearance = Appearance(theme: string, compactMode: bool)
  datatype Security = Security(twoFactor: bool, loginAlerts: bool, transactionVerification: bool)
  datatype Preferences = Preferences(currency: string, language: string, timeFormat: string)

  datatype Settings = Settings(
    notifications: Notifications,
    appearance: Appearance,
    security: Security,
    preferences: Preferences)

  /** The initial state of the page. */
  const InitialSettings: Settings := Settings(
    Notifications(true, true, true, false, true),
    Appearance("dark", false),
    Security(true, true, true),
    Preferences("USD", "English", "24h"))

  /**
   * The `(category, setting)` pairs the page passes to `handleToggle`: every boolean of the
   * record, each named by its category and key.
   */
  datatype Switch =
    | NotifyEmail | NotifyPush | NotifyTransactions | NotifyMarketing | NotifySecurity
    | CompactMode
    | TwoFactor | LoginAlerts | TransactionVerification

  /** `settings[category][setting]` for a boolean setting. */
  function IsOn(s: Settings, w: Switch): bool {
    match w
    case NotifyEmail => s.notifications.email
    case NotifyPush => s.notifications.push
    case NotifyTransactions => s.notifications.transactions
    case NotifyMarketing => s.notifications.marketing
    case NotifySecurity => s.notifications.security
    case CompactMode => s.appearance.compactMode
    case TwoFactor => s.security.twoFactor
    case LoginAlerts => s.security.loginAlerts
    case TransactionVerification => s.security.transactionVerification
  }

  /** The text settings, each set by one select. */
  datatype Choice = Theme | Currency | Language | TimeFormat

  function Chosen(s: Settings, c: Choice): string {
    match c
    case Theme => s.appearance.theme
    case Currency => s.preferences.currency
    case Language => s.preferences.language
    case TimeFormat => s.preferences.timeFormat
  }

  /** The initial record: which switches start on, and the initial choices. */
  lemma {:induction false} InitialValues()
    ensures forall w :: IsOn(InitialSettings, w) <==> w != NotifyMarketing && w != CompactMode
    ensures Chosen(InitialSettings, Theme) == "dark" && Chosen(InitialSettings, Currency) == "USD"
    ensures Chosen(InitialSettings, Language) == "English" && Chosen(InitialSettings, TimeFormat) == "24h"
  {
  }

  /** `handleToggle(category, setting)`: a copy of the record with that one boolean negated. */
  function HandleToggle(s: Settings, w: Switch): (r: Settings)
    ensures IsOn(r, w) == !IsOn(s, w)
    ensures forall v :: v != w ==> IsOn(r, v) == IsOn(s, v)
    ensures forall c :: Chosen(r, c) == Chosen(s, c)
  {
    match w
    case NotifyEmail => s.(notifications := s.notifications.(email := !s.notifications.email))
    case NotifyPush => s.(notifications := s.notifications.(push := !s.notifications.push))
    case NotifyTransactions => s.(notifications := s.notifications.(transactions := !s.notifications.transactions))
    case NotifyMarketing => s.(notifications := s.notifications.(marketing := !s.notifications.marketing))
    case NotifySecurity => s.(notifications := s.notifications.(security := !s.notifications.security))
    case CompactMode => s.(appearance := s.appearance.(compactMode := !s.appearance.compactMode))
    case TwoFactor => s.(security := s.security.(twoFactor := !s.security.twoFactor))
    case LoginAlerts => s.(security := s.security.(loginAlerts := !s.security.loginAlerts))
    case TransactionVerification =>
      s.(security := s.security.(transactionVerification := !s.security.transactionVerification))
  }

  /** The record is determined by its switches and its choices. */
  lemma {:induction false} SettingsExtensional(s: Settings, t: Settings)
    requires forall w :: IsOn(s, w) == IsOn(t, w)
    requires forall c :: Chosen(s, c) == Chosen(t, c)
    ensures s == t
  {
    assert IsOn(s, NotifyEmail) == IsOn(t, NotifyEmail) && IsOn(s, NotifyPush) == IsOn(t, NotifyPush);
    assert IsOn(s, NotifyTransactions) == IsOn(t, NotifyTransactions) && IsOn(s, NotifyMarketing) == IsOn(t, NotifyMarketing);
    assert IsOn(s, NotifySecurity) == IsOn(t, NotifySecurity) && IsOn(s, CompactMode) == IsOn(t, CompactMode);
    assert IsOn(s, TwoFactor) == IsOn(t, TwoFactor) && IsOn(s, LoginAlerts) == IsOn(t, LoginAlerts);
    assert IsOn(s, TransactionVerification) == IsOn(t, TransactionVerification);
    assert Chosen(s, Theme) == Chosen(t, Theme) && Chosen(s, Currency) == Chosen(t, Currency);
    assert Chosen(s, Language) == Chosen(t, Language) && Chosen(s, TimeFormat) == Chosen(t, TimeFormat);
  }

  /** Flipping the same switch twice restores the original record. */
  lemma {:induction false} ToggleTwice(s: Settings, w: Switch)
    ensures HandleToggle(HandleToggle(s, w), w) == s
  {
    SettingsExtensional(HandleToggle(HandleToggle(s, w), w), s);
  }

  /** Flipping two switches gives the same record in either order. */
  lemma {:induction false} TogglesCommute(s: Settings, v: Switch, w: Switch)
    ensures HandleToggle(HandleToggle(s, v), w) == HandleToggle(HandleToggle(s, w), v)
  {
    SettingsExtensional(HandleToggle(HandleToggle(s, v), w), HandleToggle(HandleToggle(s, w), v));
  }

  /** The theme select: `appearance.theme` becomes the selected value. */
  function SetTheme(s: Settings, value: string): (r: Settings)
    ensures Chosen(r, Theme) == value
    ensures forall c :: c != Theme ==> Chosen(r, c) == Chosen(s, c)
    ensures forall w :: IsOn(r, w) == IsOn(s, w)
  {
    s.(appearance := s.appearance.(theme := value))
  }

  /** The currency select: `preferences.currency` becomes the selected value. */
  function SetCurrency(s: Settings, value: string): (r: Settings)
    ensures Chosen(r, Currency) == value
    ensures forall c :: c != Currency ==> Chosen(r, c) == Chosen(s, c)
    ensures forall w :: IsOn(r, w) == IsOn(s, w)
  {
    s.(preferences := s.preferences.(currency := value))
  }

  /** The language select: `preferences.language` becomes the selected value. */
  function SetLanguage(s: Settings, value: string): (r: Settings)
    ensures Chosen(r, Language) == value
    ensures forall c :: c != Language ==> Chosen(r, c) == Chosen(s, c)
    ensures forall w :: IsOn(r, w) == IsOn(s, w)
  {
    s.(preferences := s.preferences.(language := value))
  }

  /** The time-format select: `preferences.timeFormat` becomes the selected value. */
  function SetTimeFormat(s: Settings, value: string): (r: Settings)
    ensures Chosen(r, TimeFormat) == value
    ensures forall c :: c != TimeFormat ==> Chosen(r, c) == Chosen(s, c)
    ensures forall w :: IsOn(r, w) == IsOn(s, w)
  {
    s.(preferences := s.preferences.(timeFormat := value))
  }

  /** Selecting the value already shown leaves the record as it was. */
  lemma {:induction false} SelectCurrentValue(s: Settings)
    ensures SetTheme(s, Chosen(s, Theme)) == s && SetCurrency(s, Chosen(s, Currency)) == s
    ensures SetLanguage(s, Chosen(s, Language)) == s && SetTimeFormat(s, Chosen(s, TimeFormat)) == s
  {
    SettingsExtensional(SetTheme(s, Chosen(s, Theme)), s);
    SettingsExtensional(SetCurrency(s, Chosen(s, Currency)), s);
    SettingsExtensional(SetLanguage(s, Chosen(s, Language)), s);
    SettingsExtensional(SetTimeFormat(s, Chosen(s, TimeFormat)), s);
  }

  /** A tab button: its id and the label it shows. */
  datatype Tab = Tab(id: string, title: string)

  const Tabs: seq<Tab> := [
    Tab("profile", "Profile"),
    Tab("notifications", "Notifications"),
    Tab("security", "Security"),
    Tab("payment", "Payment Methods"),
    Tab("preferences", "Preferences")
  ]

  const InitialTab: string := "profile"

  /** The panels, each rendered when `activeTab` equals its id, in page order. */
  const PanelIds: seq<string> := ["profile", "notifications", "security", "payment", "preferences"]

  /** The ids of the panels rendered for `activeTab`. */
  function ShownPanels(activeTab: string): seq<string> {
    Filter(PanelIds, (id: string) => id == activeTab)
  }

  /** Clicking a tab: `setActiveTab(tab.id)`. */
  function ClickTab(activeTab: string, tab: Tab): (r: string)
    ensures r == tab.id
  {
    tab.id
  }

  /** Every tab has its own panel: the tabs and panels carry the same five distinct ids. */
  lemma {:induction false} TabsMatchPanels()
    ensures |Tabs| == |PanelIds| == 5
    ensures forall i :: 0 <= i < 5 ==> Tabs[i].id == PanelIds[i]
    ensures forall i, j :: 0 <= i < j < 5 ==> PanelIds[i] != PanelIds[j]
  {
  }

  /** After a click on tab `i`, whatever was active before, exactly its panel is rendered. */
  lemma {:induction false} ClickShowsOnePanel(activeTab: string, i: nat)
    requires i < |Tabs|
    ensures ShownPanels(ClickTab(activeTab, Tabs[i])) == [PanelIds[i]]
  {
    TabsMatchPanels();
    OnlyOneMatch(PanelIds, PanelIds[i]);
  }

  /** After a click on tab `i`, exactly its button is highlighted (`activeTab === tab.id`). */
  lemma {:induction false} ClickHighlightsOneTab(activeTab: string, i: nat)
    requires i < |Tabs|
    ensures forall j :: 0 <= j < |Tabs| ==> (Tabs[j].id == ClickTab(activeTab, Tabs[i]) <==> j == i)
  {
    TabsMatchPanels();
  }

  /** In a list without repeats, filtering for one of its elements leaves that element alone. */
  lemma {:induction false} OnlyOneMatch(ids: seq<string>, v: string)
    requires v in ids
    requires forall i, j :: 0 <= i < j < |ids| ==> ids[i] != ids[j]
    ensures Filter(ids, (x: string) => x == v) == [v]
  {
    var p := (x: string) => x == v;
    if ids[0] == v {
      forall k | 0 <= k < |ids[1..]|
        ensures !p(ids[1..][k])
      {
        assert ids[1..][k] == ids[k + 1];
      }
      FilterEmpty(ids[1..], p);
    } else {
      OnlyOneMatch(ids[1..], v);
    }
  }

  /** The page opens on the profile panel. */
  lemma {:induction false} InitialPanel()
    ensures ShownPanels(InitialTab) == ["profile"]
  {
    ClickShowsOnePanel(InitialTab, 0);
  }
}
