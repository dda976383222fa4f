/**
 * The settings window (ClaudeUsageApp/SettingsView.swift): the four pin toggles and how they
 * are saved and restored, the stored connection configuration and its proxy port, the label
 * saying how the app authenticates, and when its buttons are enabled.
 */
module Settings {
  import opened Base
  import opened Text
  import MenuBar

  /**
   * The metric identifiers the settings window refers to: the three of the menu bar and
   * `pacing`, which the menu bar's `MetricID` does not declare.
   */
  datatype SettingsMetric = FiveHour | SevenDay | Sonnet | Pacing

  function RawValue(m: SettingsMetric): (s: string)
    ensures FromRawValue(s) == Some(m)
  {
    match m
    case FiveHour => "fiveHour"
    case SevenDay => "sevenDay"
    case Sonnet => "sonnet"
    case Pacing => "pacing"
  }

  /** `MetricID(rawValue:)`, over the four identifiers. */
  function FromRawValue(s: string): (r: Option<SettingsMetric>)
    ensures r.Some? <==> s == "fiveHour" || s == "sevenDay" || s == "sonnet" || s == "pacing"
  {
    if s == "fiveHour" then Some(FiveHour)
    else if s == "sevenDay" then Some(SevenDay)
    else if s == "sonnet" then Some(Sonnet)
    else if s == "pacing" then Some(Pacing)
    else None
  }

  /** The position of a metric in the order the toggles are saved. */
  function Rank(m: SettingsMetric): nat {
    match m
    case FiveHour => 0
    case SevenDay => 1
    case Sonnet => 2
    case Pacing => 3
  }

  /** The toggles `pinnedFiveHour`, `pinnedSevenDay`, `pinnedSonnet` and `pinnedPacing`. */
  datatype PinFlags = PinFlags(fiveHour: bool, sevenDay: bool, sonnet: bool, pacing: bool) {
    function Pinned(m: SettingsMetric): bool {
      match m
      case FiveHour => fiveHour
      case SevenDay => sevenDay
      case Sonnet => sonnet
      case Pacing => pacing
    }

    predicate NoneSet() {
      !fiveHour && !sevenDay && !sonnet && !pacing
    }
  }

  /** `ms` followed by `m` when its toggle is set: one `if pinned… { append }` step. */
  function AppendIf(ms: seq<SettingsMetric>, on: bool, m: SettingsMetric): seq<SettingsMetric> {
    if on then ms + [m] else ms
  }

  /** The set toggles, in saving order. */
  function PinnedInOrder(f: PinFlags): (r: seq<SettingsMetric>)
    ensures forall m :: m in r <==> f.Pinned(m)
    ensures forall i, j | 0 <= i < j < |r| :: Rank(r[i]) < Rank(r[j])
    ensures r == [] <==> f.NoneSet()
  {
    var r := AppendIf(AppendIf(AppendIf(AppendIf([], f.fiveHour, FiveHour), f.sevenDay, SevenDay),
                               f.sonnet, Sonnet), f.pacing, Pacing);
    assert forall m :: m in r <==> f.Pinned(m) by {
      forall m ensures m in r <==> f.Pinned(m) {
        assert m.FiveHour? || m.SevenDay? || m.Sonnet? || m.Pacing?;
      }
    }
    r
  }

  /** The raw values of a list of metrics, in the same order. */
  function Raws(ms: seq<SettingsMetric>): (r: seq<string>)
    ensures |r| == |ms|
    ensures forall i | 0 <= i < |r| :: r[i] == RawValue(ms[i])
    ensures forall m :: RawValue(m) in r <==> m in ms
  {
    if ms == [] then [] else [RawValue(ms[0])] + Raws(ms[1..])
  }

  /** Raw values distribute over concatenation. */
  lemma {:induction false} RawsAppend(a: seq<SettingsMetric>, b: seq<SettingsMetric>)
    ensures Raws(a + b) == Raws(a) + Raws(b)
  {
    if a != [] {
      assert (a + b)[1..] == a[1..] + b;
      RawsAppend(a[1..], b);
    } else {
      assert a + b == b;
    }
  }

  /** The metrics `savePinnedMetrics` saves: the set ones, or fiveHour when none is set. */
  function SavedOrder(f: PinFlags): (r: seq<SettingsMetric>)
    ensures r != []
  {
    if PinnedInOrder(f) == [] then [FiveHour] else PinnedInOrder(f)
  }

  /**
   * The list `savePinnedMetrics` writes: the raw values of the set toggles in the order
   * fiveHour, sevenDay, sonnet, pacing, or fiveHour alone when none is set.
   */
  function SavedMetrics(f: PinFlags): (r: seq<string>)
    ensures r != []
    ensures !f.NoneSet() ==> forall m :: RawValue(m) in r <==> f.Pinned(m)
    ensures f.NoneSet() ==> r == [RawValue(FiveHour)]
    ensures !f.NoneSet() ==> r == Raws(PinnedInOrder(f))
    ensures forall i, j | 0 <= i < j < |r| :: r[i] != r[j]
  {
    var ordered := SavedOrder(f);
    var r := Raws(ordered);
    assert forall i, j | 0 <= i < j < |r| :: r[i] != r[j] by {
      forall i, j | 0 <= i < j < |r| ensures r[i] != r[j] {
        assert Rank(ordered[i]) < Rank(ordered[j]);
        assert FromRawValue(r[i]) == Some(ordered[i]) && FromRawValue(r[j]) == Some(ordered[j]);
      }
    }
    r
  }

  /** The toggles after a save: fiveHour is switched on when nothing was pinned. */
  function FlagsAfterSave(f: PinFlags): (g: PinFlags)
    ensures !g.NoneSet()
    ensures forall m | m != FiveHour :: g.Pinned(m) == f.Pinned(m)
    ensures g.fiveHour == (f.fiveHour || f.NoneSet())
  {
    if f.NoneSet() then f.(fiveHour := true) else f
  }

  /**
   * The toggles `loadPinnedMetrics` leaves: each one says whether its raw value is saved, and
   * nothing changes when no list is saved.
   */
  function FlagsFromSaved(saved: Option<seq<string>>, f: PinFlags): (g: PinFlags)
    ensures saved.None? ==> g == f
    ensures saved.Some? ==> forall m :: g.Pinned(m) <==> RawValue(m) in saved.value
  {
    match saved
    case None => f
    case Some(list) =>
      var g := PinFlags(RawValue(FiveHour) in list, RawValue(SevenDay) in list, RawValue(Sonnet) in list,
                        RawValue(Pacing) in list);
      assert forall m :: g.Pinned(m) <==> RawValue(m) in list by {
        forall m ensures g.Pinned(m) <==> RawValue(m) in list {
          assert m.FiveHour? || m.SevenDay? || m.Sonnet? || m.Pacing?;
        }
      }
      g
  }

  /** Loading what was saved gives back the toggles as the save left them. */
  lemma SaveThenLoad(f: PinFlags, current: PinFlags)
    ensures FlagsFromSaved(Some(SavedMetrics(f)), current) == FlagsAfterSave(f)
  {
    var g := FlagsFromSaved(Some(SavedMetrics(f)), current);
    var h := FlagsAfterSave(f);
    if f.NoneSet() {
      assert RawValue(FiveHour) in SavedMetrics(f);
    }
    assert g.Pinned(FiveHour) == h.Pinned(FiveHour);
    assert g.Pinned(SevenDay) == h.Pinned(SevenDay);
    assert g.Pinned(Sonnet) == h.Pinned(Sonnet);
    assert g.Pinned(Pacing) == h.Pinned(Pacing);
  }

  /**
   * The menu bar, started after a save, pins the set menu-bar metrics, or fiveHour when no
   * toggle was set; pacing is not a metric it knows, so a save with only pacing set leaves
   * the menu bar with nothing pinned.
   */
  lemma MenuBarAfterSave(f: PinFlags)
    ensures forall m: MenuBar.MetricID ::
      m in MenuBar.PinnedFrom(Some(SavedMetrics(f))) <==>
        match m
        case FiveHour => f.fiveHour || f.NoneSet()
        case SevenDay => f.sevenDay
        case Sonnet => f.sonnet
    ensures MenuBar.PinnedFrom(Some(SavedMetrics(f))) == {} <==>
      f.pacing && !f.fiveHour && !f.sevenDay && !f.sonnet
  {
    var list := SavedMetrics(f);
    var pinned := MenuBar.PinnedFrom(Some(list));
    forall m: MenuBar.MetricID
      ensures m in pinned <==> RawValue(Mirror(m)) in list
    {
      MenuBarReadsRaw(list, m);
    }
    if f.NoneSet() {
      assert RawValue(FiveHour) in list;
    }
    if !(f.pacing && !f.fiveHour && !f.sevenDay && !f.sonnet) {
      if f.fiveHour || f.NoneSet() {
        assert MenuBar.FiveHour in pinned;
      } else if f.sevenDay {
        assert MenuBar.SevenDay in pinned;
      } else {
        assert MenuBar.Sonnet in pinned;
      }
    }
  }

  /** The menu bar pins a metric exactly when its raw value is in the saved list. */
  lemma MenuBarReadsRaw(list: seq<string>, m: MenuBar.MetricID)
    ensures m in MenuBar.PinnedFrom(Some(list)) <==> RawValue(Mirror(m)) in list
  {
    if m in MenuBar.PinnedFrom(Some(list)) {
      var i :| 0 <= i < |list| && MenuBar.FromRawValue(list[i]) == Some(m);
      assert list[i] == MenuBar.RawValue(m);
    }
    if RawValue(Mirror(m)) in list {
      var i :| 0 <= i < |list| && list[i] == MenuBar.RawValue(m);
      assert MenuBar.FromRawValue(list[i]) == Some(m);
    }
  }

  /** A menu-bar metric as the settings window names it. */
  function Mirror(m: MenuBar.MetricID): (s: SettingsMetric)
    ensures RawValue(s) == MenuBar.RawValue(m)
  {
    match m
    case FiveHour => FiveHour
    case SevenDay => SevenDay
    case Sonnet => Sonnet
  }

  /** `browserIcon`: the SF Symbol shown next to a detected browser. */
  function BrowserIcon(id: string): (icon: string)
    ensures icon == "globe" <==> id != "arc" && id != "brave" && id != "edge"
    ensures id == "arc" ==> icon == "circle.hexagongrid"
    ensures id == "brave" ==> icon == "shield"
    ensures id == "edge" ==> icon == "globe.americas"
  {
    if id == "chrome" then "globe"
    else if id == "arc" then "circle.hexagongrid"
    else if id == "brave" then "shield"
    else if id == "edge" then "globe.americas"
    else "globe"
  }

  /** The configuration the settings window writes for the app and the widgets. */
  datatype SettingsConfig = SettingsConfig(
    sessionKey: string,
    organizationID: string,
    proxyEnabled: bool,
    proxyHost: string,
    proxyPort: int)

  const DefaultProxyPort: int := 1080

  /** The port `saveConfig` stores for the text of the port field: `Int(proxyPort) ?? 1080`. */
  function PortToSave(text: string): (port: int)
    ensures ParseInt(text).None? ==> port == DefaultProxyPort
    ensures ParseInt(text).Some? ==> port == ParseInt(text).value
    ensures IntMin <= port <= IntMax
  {
    ParseInt(text).GetOr(DefaultProxyPort)
  }

  /** The configuration `saveConfig` builds from the fields of the window. */
  function ConfigOf(sessionKey: string, organizationID: string, proxyEnabled: bool, proxyHost: string,
                    proxyPort: string): SettingsConfig
  {
    SettingsConfig(sessionKey, organizationID, proxyEnabled, proxyHost, PortToSave(proxyPort))
  }

  /**
   * A stored configuration survives being loaded into the window and saved again: the port
   * field holds `String(port)`, which parses back to the port.
   */
  lemma ConfigSurvivesReload(c: SettingsConfig)
    requires IntMin <= c.proxyPort <= IntMax
    ensures ConfigOf(c.sessionKey, c.organizationID, c.proxyEnabled, c.proxyHost, IntToString(c.proxyPort)) == c
  {
    ParseIntToString(c.proxyPort);
  }

  /** The localized labels of the authentication method, by key. */
  const OAuthLabel: string := "connect.method.oauth"
  const CookiesLabel: string := "connect.method.cookies"

  /** The state of the settings window that its rules read and write. */
  class SettingsState {
    var sessionKey: string
    var organizationID: string
    var isTesting: bool
    var isImporting: bool
    var isOAuth: bool
    var authMethodLabel: string
    var pinnedFiveHour: bool
    var pinnedSevenDay: bool
    var pinnedSonnet: bool
    var pinnedPacing: bool
    var proxyEnabled: bool
    var proxyHost: string
    var proxyPort: string
    /** The `pinnedMetrics` entry of the user defaults. */
    var savedPinned: Option<seq<string>>
    /** The configuration last written to the shared storage. */
    var savedConfig: Option<SettingsConfig>

    /** The window's initial state, over the given user defaults. */
    constructor (saved: Option<seq<string>>)
      ensures sessionKey == "" && organizationID == "" && authMethodLabel == ""
      ensures !isTesting && !isImporting && !isOAuth
      ensures Pins() == PinFlags(true, true, false, false)
      ensures !proxyEnabled && proxyHost == "127.0.0.1" && proxyPort == "1080"
      ensures savedPinned == saved && savedConfig.None?
      ensures !ConnectDisabled() && ProxyFieldsDisabled() && RefreshDisabled() && TestDisabled()
    {
      sessionKey, organizationID := "", "";
      isTesting, isImporting, isOAuth := false, false, false;
      authMethodLabel := "";
      pinnedFiveHour, pinnedSevenDay, pinnedSonnet, pinnedPacing := true, true, false, false;
      proxyEnabled, proxyHost, proxyPort := false, "127.0.0.1", "1080";
      savedPinned := saved;
      savedConfig := None;
    }

    function Pins(): PinFlags
      reads this
    {
      PinFlags(pinnedFiveHour, pinnedSevenDay, pinnedSonnet, pinnedPacing)
    }

    /** `savePinnedMetrics`. */
    method SavePinnedMetrics()
      modifies this
      ensures savedPinned == Some(SavedMetrics(old(Pins())))
      ensures Pins() == FlagsAfterSave(old(Pins()))
      ensures sessionKey == old(sessionKey) && organizationID == old(organizationID)
      ensures isOAuth == old(isOAuth) && authMethodLabel == old(authMethodLabel)
      ensures isTesting == old(isTesting) && isImporting == old(isImporting)
      ensures proxyEnabled == old(proxyEnabled) && proxyHost == old(proxyHost) && proxyPort == old(proxyPort)
      ensures savedConfig == old(savedConfig)
    {
      ghost var before := Pins();
      var metrics: seq<string> := [];
      ghost var ms: seq<SettingsMetric> := [];
      if pinnedFiveHour { metrics := metrics + [RawValue(FiveHour)]; RawsSnoc(ms, FiveHour); ms := ms + [FiveHour]; }
      assert ms == AppendIf([], before.fiveHour, FiveHour) && metrics == Raws(ms);
      if pinnedSevenDay { metrics := metrics + [RawValue(SevenDay)]; RawsSnoc(ms, SevenDay); ms := ms + [SevenDay]; }
      assert ms == AppendIf(AppendIf([], before.fiveHour, FiveHour), before.sevenDay, SevenDay) && metrics == Raws(ms);
      if pinnedSonnet { metrics := metrics + [RawValue(Sonnet)]; RawsSnoc(ms, Sonnet); ms := ms + [Sonnet]; }
      assert metrics == Raws(ms);
      if pinnedPacing { metrics := metrics + [RawValue(Pacing)]; RawsSnoc(ms, Pacing); ms := ms + [Pacing]; }
      assert metrics == Raws(ms);
      assert ms == PinnedInOrder(before);
      if metrics == [] {
        RawsSnoc(ms, FiveHour);
        metrics := metrics + [RawValue(FiveHour)];
        ms := ms + [FiveHour];
        pinnedFiveHour := true;
      }
      assert ms == SavedOrder(before);
      assert metrics == SavedMetrics(before);
      savedPinned := Some(metrics);
    }

    /** `loadPinnedMetrics`. */
    method LoadPinnedMetrics()
      modifies this
      ensures Pins() == FlagsFromSaved(savedPinned, old(Pins()))
      ensures savedPinned == old(savedPinned) && savedConfig == old(savedConfig)
      ensures sessionKey == old(sessionKey) && organizationID == old(organizationID)
      ensures isOAuth == old(isOAuth) && authMethodLabel == old(authMethodLabel)
      ensures isTesting == old(isTesting) && isImporting == old(isImporting)
      ensures proxyEnabled == old(proxyEnabled) && proxyHost == old(proxyHost) && proxyPort == old(proxyPort)
    {
      if savedPinned.Some? {
        var list := savedPinned.value;
        pinnedFiveHour := RawValue(FiveHour) in list;
        pinnedSevenDay := RawValue(SevenDay) in list;
        pinnedSonnet := RawValue(Sonnet) in list;
        pinnedPacing := RawValue(Pacing) in list;
      }
    }

    /** `saveConfig`. */
    method SaveConfig()
      modifies this
      ensures savedConfig == Some(ConfigOf(sessionKey, organizationID, proxyEnabled, proxyHost, proxyPort))
      ensures sessionKey == old(sessionKey) && organizationID == old(organizationID)
      ensures proxyEnabled == old(proxyEnabled) && proxyHost == old(proxyHost) && proxyPort == old(proxyPort)
      ensures Pins() == old(Pins()) && savedPinned == old(savedPinned)
      ensures isOAuth == old(isOAuth) && authMethodLabel == old(authMethodLabel)
      ensures isTesting == old(isTesting) && isImporting == old(isImporting)
    {
      var port := ParseInt(proxyPort);
      savedConfig := Some(SettingsConfig(sessionKey, organizationID, proxyEnabled, proxyHost,
                                         if port.Some? then port.value else DefaultProxyPort));
    }

    /**
     * `loadConfig`, given the stored configuration and whether a Claude Code OAuth token is
     * in the keychain: the token wins; otherwise a complete pair of cookies selects the cookie
     * method; otherwise the label is left as it was.
     */
    method LoadConfig(stored: Option<SettingsConfig>, hasOAuthToken: bool)
      modifies this
      ensures stored.Some? ==>
        && sessionKey == stored.value.sessionKey && organizationID == stored.value.organizationID
        && proxyEnabled == stored.value.proxyEnabled && proxyHost == stored.value.proxyHost
        && proxyPort == IntToString(stored.value.proxyPort)
      ensures stored.None? ==>
        && sessionKey == old(sessionKey) && organizationID == old(organizationID)
        && proxyEnabled == old(proxyEnabled) && proxyHost == old(proxyHost) && proxyPort == old(proxyPort)
      ensures Pins() == FlagsFromSaved(savedPinned, old(Pins()))
      ensures hasOAuthToken ==> isOAuth && authMethodLabel == OAuthLabel
      ensures !hasOAuthToken && sessionKey != "" && organizationID != "" ==>
        !isOAuth && authMethodLabel == CookiesLabel
      ensures !hasOAuthToken && (sessionKey == "" || organizationID == "") ==>
        isOAuth == old(isOAuth) && authMethodLabel == old(authMethodLabel)
      ensures savedPinned == old(savedPinned) && savedConfig == old(savedConfig)
      ensures isTesting == old(isTesting) && isImporting == old(isImporting)
    {
      if stored.Some? {
        var c := stored.value;
        sessionKey := c.sessionKey;
        organizationID := c.organizationID;
        proxyEnabled := c.proxyEnabled;
        proxyHost := c.proxyHost;
        proxyPort := IntToString(c.proxyPort);
      }
      LoadPinnedMetrics();
      if hasOAuthToken {
        authMethodLabel := OAuthLabel;
        isOAuth := true;
      } else if sessionKey != "" && organizationID != "" {
        authMethodLabel := CookiesLabel;
        isOAuth := false;
      }
    }

    /** The Connect button is disabled while an import runs. */
    predicate ConnectDisabled()
      reads this
    {
      isImporting
    }

    /** The proxy host and port fields are disabled while the proxy is off. */
    predicate ProxyFieldsDisabled()
      reads this
      ensures ProxyFieldsDisabled() <==>
        !ConfigOf(sessionKey, organizationID, proxyEnabled, proxyHost, proxyPort).proxyEnabled
    {
      !proxyEnabled
    }

    /** The widget-refresh button is disabled without OAuth and without a session key. */
    predicate RefreshDisabled()
      reads this
      ensures !isOAuth ==>
        (RefreshDisabled() <==> ConfigOf(sessionKey, organizationID, proxyEnabled, proxyHost, proxyPort).sessionKey == "")
    {
      !isOAuth && sessionKey == ""
    }

    /**
     * The Test button is disabled during a test, and without OAuth unless both cookies are
     * filled in; whenever the refresh button is disabled, so is Test.
     */
    predicate TestDisabled()
      reads this
      ensures !TestDisabled() ==> !isTesting && (isOAuth || (sessionKey != "" && organizationID != ""))
      ensures RefreshDisabled() ==> TestDisabled()
    {
      (!isOAuth && (sessionKey == "" || organizationID == "")) || isTesting
    }
  }

  /** Appending one metric appends its raw value. */
  lemma RawsSnoc(ms: seq<SettingsMetric>, m: SettingsMetric)
    ensures Raws(ms + [m]) == Raws(ms) + [RawValue(m)]
  {
    RawsAppend(ms, [m]);
    assert Raws([m]) == [RawValue(m)];
  }
}
