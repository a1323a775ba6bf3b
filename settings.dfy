/**
 * The dashboard's settings panel: four switches, each showing and flipping
 * one visibility preference.
 */
module Settings {

  /** Which dashboard sections are shown. */
  datatype DashboardPrefs = DashboardPrefs(showSearch: bool, showPorts: bool, showLinks: bool, showClock: bool)

  /** `keyof DashboardPrefs` */
  datatype PrefKey = ShowSearch | ShowPorts | ShowLinks | ShowClock

  /** `prefs[key]` */
  function Get(prefs: DashboardPrefs, key: PrefKey): bool {
    match key
    case ShowSearch => prefs.showSearch
    case ShowPorts => prefs.showPorts
    case ShowLinks => prefs.showLinks
    case ShowClock => prefs.showClock
  }

  /** `{ ...prefs, [key]: !prefs[key] }`: a new record with `key` negated and the other three fields kept. */
  function Toggle(prefs: DashboardPrefs, key: PrefKey): (next: DashboardPrefs)
    ensures Get(next, key) == !Get(prefs, key)
    ensures forall k :: k != key ==> Get(next, k) == Get(prefs, k)
  {
    match key
    case ShowSearch => prefs.(showSearch := !prefs.showSearch)
    case ShowPorts => prefs.(showPorts := !prefs.showPorts)
    case ShowLinks => prefs.(showLinks := !prefs.showLinks)
    case ShowClock => prefs.(showClock := !prefs.showClock)
  }

  /** Two records that agree on every key are the same record. */
  lemma PrefsByKeys(a: DashboardPrefs, b: DashboardPrefs)
    requires forall k :: Get(a, k) == Get(b, k)
    ensures a == b
  {
    assert Get(a, ShowSearch) == Get(b, ShowSearch) && Get(a, ShowPorts) == Get(b, ShowPorts);
    assert Get(a, ShowLinks) == Get(b, ShowLinks) && Get(a, ShowClock) == Get(b, ShowClock);
  }

  /** Toggling the same key twice gives back the original record. */
  lemma ToggleTwice(prefs: DashboardPrefs, key: PrefKey)
    ensures Toggle(Toggle(prefs, key), key) == prefs
  {
    PrefsByKeys(Toggle(Toggle(prefs, key), key), prefs);
  }

  /** Toggles of different keys commute. */
  lemma TogglesCommute(prefs: DashboardPrefs, a: PrefKey, b: PrefKey)
    ensures Toggle(Toggle(prefs, a), b) == Toggle(Toggle(prefs, b), a)
  {
    PrefsByKeys(Toggle(Toggle(prefs, a), b), Toggle(Toggle(prefs, b), a));
  }

  /** The panel's four switches, by their labels. */
  datatype Switch = SearchBarSwitch | LocalServersSwitch | QuickLinksSwitch | ClockSwitch

  /** The key each switch shows as `checked` and passes to `toggle`: each switch its own key. */
  function SwitchKey(s: Switch): (key: PrefKey)
    ensures key == ShowSearch <==> s == SearchBarSwitch
    ensures key == ShowPorts <==> s == LocalServersSwitch
    ensures key == ShowLinks <==> s == QuickLinksSwitch
    ensures key == ShowClock <==> s == ClockSwitch
  {
    match s
    case SearchBarSwitch => ShowSearch
    case LocalServersSwitch => ShowPorts
    case QuickLinksSwitch => ShowLinks
    case ClockSwitch => ShowClock
  }

  /** No two switches share a key, and every key has a switch. */
  lemma SwitchesMatchKeys(key: PrefKey)
    ensures exists s :: SwitchKey(s) == key
    ensures forall s, t :: SwitchKey(s) == key && SwitchKey(t) == key ==> s == t
  {
    match key
    case ShowSearch => assert SwitchKey(SearchBarSwitch) == key;
    case ShowPorts => assert SwitchKey(LocalServersSwitch) == key;
    case ShowLinks => assert SwitchKey(QuickLinksSwitch) == key;
    case ShowClock => assert SwitchKey(ClockSwitch) == key;
  }

  /** The records `onChange` receives when switch `s` is clicked: exactly one, the toggled record. */
  function OnSwitchChange(prefs: DashboardPrefs, s: Switch): (changes: seq<DashboardPrefs>)
    ensures |changes| == 1
    ensures Get(changes[0], SwitchKey(s)) == !Get(prefs, SwitchKey(s))
  {
    [Toggle(prefs, SwitchKey(s))]
  }

  /** Clicking a switch flips that switch's checked state and leaves every other switch as it was. */
  lemma ClickFlipsOnlyItsSwitch(prefs: DashboardPrefs, s: Switch, other: Switch)
    ensures var next := OnSwitchChange(prefs, s)[0];
            && Get(next, SwitchKey(s)) == !Get(prefs, SwitchKey(s))
            && (other != s ==> Get(next, SwitchKey(other)) == Get(prefs, SwitchKey(other)))
  {
  }
}
