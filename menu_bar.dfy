/**
 * The menu bar item (ClaudeUsageApp/MenuBarView.swift): the metrics the user pins, the text
 * the status-bar image shows, the countdown to the session reset, and the colour bands of the
 * percentages.
 */
module MenuBar {
  import opened Base
  import opened Text
  import opened Usage

  /** `MetricID`. */
  datatype MetricID = FiveHour | SevenDay | Sonnet

  /** The position of a metric in the fixed display order. */
  function Rank(m: MetricID): nat {
    match m
    case FiveHour => 0
    case SevenDay => 1
    case Sonnet => 2
  }

  function RawValue(m: MetricID): (s: string)
    ensures FromRawValue(s) == Some(m)
  {
    match m
    case FiveHour => "fiveHour"
    case SevenDay => "sevenDay"
    case Sonnet => "sonnet"
  }

  /** `MetricID(rawValue:)`. */
  function FromRawValue(s: string): (r: Option<MetricID>)
    ensures r.Some? <==> s == "fiveHour" || s == "sevenDay" || s == "sonnet"
  {
    if s == "fiveHour" then Some(FiveHour)
    else if s == "sevenDay" then Some(SevenDay)
    else if s == "sonnet" then Some(Sonnet)
    else None
  }

  /** `shortLabel`: the label before each percentage in the menu bar. */
  function ShortLabel(m: MetricID): string {
    match m
    case FiveHour => "5h"
    case SevenDay => "7d"
    case Sonnet => "S"
  }

  /** The pinned metrics in the order fiveHour, sevenDay, sonnet. */
  function OrderedPinned(pinned: set<MetricID>): (r: seq<MetricID>)
    ensures forall m :: m in r <==> m in pinned
    ensures forall i, j | 0 <= i < j < |r| :: Rank(r[i]) < Rank(r[j])
  {
    var r := (if FiveHour in pinned then [FiveHour] else []) +
             (if SevenDay in pinned then [SevenDay] else []) +
             (if Sonnet in pinned then [Sonnet] else []);
    assert forall m :: m in r <==> m in pinned by {
      forall m ensures m in r <==> m in pinned {
        assert m.FiveHour? || m.SevenDay? || m.Sonnet?;
      }
    }
    r
  }

  /** The strings written under `pinnedMetrics` in the user defaults. */
  function SavedList(pinned: set<MetricID>): seq<string> {
    var ordered := OrderedPinned(pinned);
    seq(|ordered|, i requires 0 <= i < |ordered| => RawValue(ordered[i]))
  }

  /**
   * The set `init` starts from: the saved strings that name a metric, or fiveHour and sevenDay
   * when nothing was saved.  Unknown strings are dropped, so the set can be empty.
   */
  function PinnedFrom(saved: Option<seq<string>>): (r: set<MetricID>)
    ensures saved.None? ==> r == {FiveHour, SevenDay}
    ensures saved.Some? ==>
      forall m :: m in r <==> exists i | 0 <= i < |saved.value| :: FromRawValue(saved.value[i]) == Some(m)
  {
    match saved
    case None => {FiveHour, SevenDay}
    case Some(list) =>
      set i | 0 <= i < |list| && FromRawValue(list[i]).Some? :: FromRawValue(list[i]).value
  }

  /** What is saved is what the next launch starts from. */
  lemma PinnedSurvivesRestart(pinned: set<MetricID>)
    ensures PinnedFrom(Some(SavedList(pinned))) == pinned
  {
    var ordered := OrderedPinned(pinned);
    var list := SavedList(pinned);
    forall m | m in pinned
      ensures exists i | 0 <= i < |list| :: FromRawValue(list[i]) == Some(m)
    {
      var i :| 0 <= i < |ordered| && ordered[i] == m;
      assert FromRawValue(list[i]) == Some(m);
    }
  }

  /**
   * `toggleMetric`: an absent metric is added; a present one is removed unless it is the only
   * one.  Only the toggled metric changes, and a non-empty set stays non-empty.
   */
  function Toggled(pinned: set<MetricID>, m: MetricID): (r: set<MetricID>)
    ensures forall x | x != m :: x in r <==> x in pinned
    ensures m in r <==> m !in pinned || pinned == {m}
    ensures pinned != {} ==> r != {}
  {
    if m in pinned then
      assert pinned == (pinned - {m}) + {m};
      if |pinned| > 1 then
        assert pinned - {m} != {};
        pinned - {m}
      else
        assert pinned - {m} == {};
        pinned
    else pinned + {m}
  }

  /** Toggling a metric twice gives the set back, as long as something was pinned. */
  lemma ToggleTwice(pinned: set<MetricID>, m: MetricID)
    requires pinned != {}
    ensures Toggled(Toggled(pinned, m), m) == pinned
  {
    if m !in pinned {
      assert |pinned + {m}| == |pinned| + 1;
      assert (pinned + {m}) - {m} == pinned;
    }
  }

  /** The three percentages the view model keeps. */
  datatype Percentages = Percentages(fiveHour: int, sevenDay: int, sonnet: int) {
    /** `pct(for:)`. */
    function For(m: MetricID): int {
      match m
      case FiveHour => fiveHour
      case SevenDay => sevenDay
      case Sonnet => sonnet
    }
  }

  /** One entry of the menu bar: `"5h 42%"`. */
  function EntryText(m: MetricID, pct: int): string {
    ShortLabel(m) + " " + IntToString(pct) + "%"
  }

  /** The entries of `ordered`, two spaces apart. */
  function MetricsText(ordered: seq<MetricID>, pcts: Percentages): (t: string)
    ensures t == [] <==> ordered == []
    ensures t != [] ==> t[0] != '-'
  {
    if ordered == [] then []
    else if |ordered| == 1 then EntryText(ordered[0], pcts.For(ordered[0]))
    else EntryText(ordered[0], pcts.For(ordered[0])) + "  " + MetricsText(ordered[1..], pcts)
  }

  /** The metric whose label opens `s`, and the text after the label and its space. */
  function ReadLabel(s: string): (r: Option<(MetricID, string)>)
    ensures r.Some? ==> s == ShortLabel(r.value.0) + " " + r.value.1
    ensures r.None? ==> forall m: MetricID :: !(ShortLabel(m) + " " <= s)
    ensures r.Some? ==> |r.value.1| < |s|
  {
    if |s| >= 3 && s[0] == '5' && s[1] == 'h' && s[2] == ' ' then Some((FiveHour, s[3..]))
    else if |s| >= 3 && s[0] == '7' && s[1] == 'd' && s[2] == ' ' then Some((SevenDay, s[3..]))
    else if |s| >= 2 && s[0] == 'S' && s[1] == ' ' then Some((Sonnet, s[2..]))
    else None
  }

  /** Reads the menu bar text back as the metrics it shows, with their percentages. */
  function ReadEntries(s: string): Option<seq<(MetricID, int)>>
    decreases |s|
  {
    if s == [] then Some([])
    else
      match ReadLabel(s)
      case None => None
      case Some((m, afterLabel)) =>
        ReadIntShrinks(afterLabel);
        match ReadInt(afterLabel)
        case None => None
        case Some((v, afterValue)) =>
          if afterValue == [] || afterValue[0] != '%' then None
          else
            var tail := afterValue[1..];
            if tail == [] then Some([(m, v)])
            else if |tail| > 2 && tail[0] == ' ' && tail[1] == ' ' then
              var more := ReadEntries(tail[2..]);
              if more.None? then None else Some([(m, v)] + more.value)
            else None
  }

  /** The metrics of `ordered`, each with its percentage. */
  function Shown(ordered: seq<MetricID>, pcts: Percentages): seq<(MetricID, int)> {
    seq(|ordered|, i requires 0 <= i < |ordered| => (ordered[i], pcts.For(ordered[i])))
  }

  lemma ReadLabelOf(m: MetricID, after: string)
    ensures ReadLabel(ShortLabel(m) + " " + after) == Some((m, after))
  {
    var s := ShortLabel(m) + " " + after;
    assert s[|ShortLabel(m)| + 1..] == after;
  }

  lemma ReadEntryText(m: MetricID, pct: int, rest: string)
    requires rest == [] || rest[0] == ' '
    ensures ReadLabel(EntryText(m, pct) + rest) == Some((m, IntToString(pct) + "%" + rest))
    ensures ReadInt(IntToString(pct) + "%" + rest) == Some((pct, "%" + rest))
  {
    var head, number := ShortLabel(m) + " ", IntToString(pct);
    var after := number + "%" + rest;
    assert EntryText(m, pct) + rest == head + after by {
      assert EntryText(m, pct) == head + number + "%";
      SplitAfterLabel(head, number, rest);
    }
    ReadLabelOf(m, after);
    assert after == number + ("%" + rest);
    ReadIntToString(pct, "%" + rest);
  }

  lemma SplitAfterLabel(head: string, number: string, rest: string)
    ensures head + number + "%" + rest == head + (number + "%" + rest)
  {
  }

  /** Reading one entry, and then what follows its two-space separator. */
  lemma ReadEntriesStep(m: MetricID, pct: int, rest: string, more: seq<(MetricID, int)>)
    requires rest == [] || (|rest| > 2 && rest[0] == ' ' && rest[1] == ' ' && ReadEntries(rest[2..]) == Some(more))
    ensures ReadEntries(EntryText(m, pct) + rest) == Some([(m, pct)] + (if rest == [] then [] else more))
  {
    var s := EntryText(m, pct) + rest;
    ReadEntryText(m, pct, rest);
    var afterValue := "%" + rest;
    assert afterValue != [] && afterValue[0] == '%' && afterValue[1..] == rest;
    if rest == [] {
      assert ReadEntries(s) == Some([(m, pct)]);
      assert [(m, pct)] + [] == [(m, pct)];
    } else {
      assert ReadEntries(s) == Some([(m, pct)] + more);
    }
  }

  /** The menu bar text loses nothing: it reads back as the metrics and percentages it shows. */
  lemma {:induction false} MetricsTextReadsBack(ordered: seq<MetricID>, pcts: Percentages)
    ensures ReadEntries(MetricsText(ordered, pcts)) == Some(Shown(ordered, pcts))
  {
    if ordered == [] {
      assert Shown(ordered, pcts) == [];
    } else {
      var m := ordered[0];
      var e := EntryText(m, pcts.For(m));
      ShownCons(ordered, pcts);
      if |ordered| == 1 {
        assert MetricsText(ordered, pcts) == e + [];
        assert Shown(ordered[1..], pcts) == [];
        ReadEntriesStep(m, pcts.For(m), [], []);
      } else {
        var tail := MetricsText(ordered[1..], pcts);
        var rest := "  " + tail;
        MetricsTextReadsBack(ordered[1..], pcts);
        assert MetricsText(ordered, pcts) == e + rest by {
          assert MetricsText(ordered, pcts) == e + "  " + tail;
          AssociateSeparator(e, tail);
        }
        assert rest[2..] == tail;
        ReadEntriesStep(m, pcts.For(m), rest, Shown(ordered[1..], pcts));
      }
    }
  }

  lemma AssociateSeparator(e: string, tail: string)
    ensures e + "  " + tail == e + ("  " + tail)
  {
  }

  lemma ShownCons(ordered: seq<MetricID>, pcts: Percentages)
    requires ordered != []
    ensures Shown(ordered, pcts) == [(ordered[0], pcts.For(ordered[0]))] + Shown(ordered[1..], pcts)
  {
  }

  /** What the countdown to the session reset shows. */
  datatype ResetShown = NoReset | ResetNow | ResetIn(hours: nat, minutes: nat)

  /** Whole seconds as hours, the minutes of the last hour, and the seconds left over. */
  lemma SplitSeconds(seconds: nat)
    ensures var h, m := seconds / 3600, (seconds % 3600) / 60;
      m < 60 && h * 3600 + m * 60 <= seconds < h * 3600 + m * 60 + 60
  {
    var h, r := seconds / 3600, seconds % 3600;
    assert seconds == h * 3600 + r;
    assert r == (r / 60) * 60 + r % 60;
  }

  /**
   * The countdown `update(from:)` computes: the whole seconds left, split into hours and the
   * minutes of the last hour, or "now" once the reset is past.
   */
  function ResetCountdown(resetsAt: Option<real>, now: real): (r: ResetShown)
    ensures resetsAt.None? <==> r.NoReset?
    ensures r.ResetNow? <==> resetsAt.Some? && resetsAt.value - now <= 0.0
  {
    match resetsAt
    case None => NoReset
    case Some(reset) =>
      var diff := reset - now;
      if diff > 0.0 then
        var seconds := TruncateToInt(diff);
        ResetIn(seconds / 3600, (seconds % 3600) / 60)
      else ResetNow
  }

  /** The hours and minutes shown are those of the time left, rounded down to the minute. */
  lemma ResetCountdownBounds(resetsAt: Option<real>, now: real)
    ensures var r := ResetCountdown(resetsAt, now);
      r.ResetIn? ==>
        && r.minutes < 60
        && (r.hours * 3600 + r.minutes * 60) as real <= resetsAt.value - now
        && resetsAt.value - now < (r.hours * 3600 + r.minutes * 60 + 60) as real
  {
    if resetsAt.Some? && resetsAt.value - now > 0.0 {
      SplitSeconds(TruncateToInt(resetsAt.value - now));
    }
  }

  const ResetNowText: string := "maintenant"

  /** `"3h 5min"`, or `"42min"` when less than an hour is left. */
  function HoursMinutesText(h: int, m: int): string {
    if h > 0 then IntToString(h) + ("h " + (IntToString(m) + "min")) else IntToString(m) + "min"
  }

  /** `fiveHourReset` as `update(from:)` writes it: `"3h 5min"`, `"42min"`, `"maintenant"` or empty. */
  function MenuResetText(resetsAt: Option<real>, now: real): (r: string)
    ensures r == "" <==> resetsAt.None?
    ensures r == ResetNowText <==> resetsAt.Some? && resetsAt.value - now <= 0.0
    ensures resetsAt.Some? && resetsAt.value - now > 0.0 ==> IsDigit(r[0])
  {
    match resetsAt
    case None => ""
    case Some(reset) =>
      var diff := reset - now;
      if diff > 0.0 then
        var t := HoursMinutesText(TruncateToInt(diff) / 3600, (TruncateToInt(diff) % 3600) / 60);
        assert t[0] != ResetNowText[0];
        t
      else ResetNowText
  }

  /** Reads a countdown back from its text. */
  function ReadMenuReset(s: string): Option<ResetShown> {
    match ReadNat(s)
    case Some((a, rest)) =>
      if |rest| >= 2 && rest[0] == 'h' && rest[1] == ' ' then
        match ReadNat(rest[2..])
        case None => None
        case Some((b, rest2)) => if rest2 == "min" then Some(ResetIn(a, b)) else None
      else if rest == "min" then Some(ResetIn(0, a))
      else None
    case None =>
      if s == "" then Some(NoReset)
      else if s == ResetNowText then Some(ResetNow)
      else None
  }

  lemma MinutesReadBack(m: nat)
    ensures ReadMenuReset(NatToString(m) + "min") == Some(ResetIn(0, m))
  {
    ReadNatToString(m, "min");
  }

  lemma HoursReadBack(h: nat, m: nat)
    ensures ReadMenuReset(NatToString(h) + ("h " + (NatToString(m) + "min"))) == Some(ResetIn(h, m))
  {
    var rest := "h " + (NatToString(m) + "min");
    ReadNatToString(h, rest);
    assert rest[2..] == NatToString(m) + "min";
    ReadNatToString(m, "min");
  }

  lemma HoursMinutesReadsBack(h: nat, m: nat)
    ensures ReadMenuReset(HoursMinutesText(h, m)) == Some(ResetIn(h, m))
  {
    if h > 0 {
      HoursReadBack(h, m);
    } else {
      MinutesReadBack(m);
    }
  }

  /** The countdown text shows exactly the countdown. */
  lemma MenuResetReadsBack(resetsAt: Option<real>, now: real)
    ensures ReadMenuReset(MenuResetText(resetsAt, now)) == Some(ResetCountdown(resetsAt, now))
  {
    match resetsAt
    case None =>
    case Some(reset) =>
      if reset - now > 0.0 {
        var seconds := TruncateToInt(reset - now);
        var h, m := seconds / 3600, (seconds % 3600) / 60;
        assert MenuResetText(resetsAt, now) == HoursMinutesText(h, m);
        assert ResetCountdown(resetsAt, now) == ResetIn(h, m);
        HoursMinutesReadsBack(h, m);
      } else {
        assert MenuResetText(resetsAt, now) == ResetNowText;
        assert ReadNat(ResetNowText).None?;
      }
  }

  /** The three colour bands of a percentage. */
  datatype Band = Green | Orange | Red

  function BandOf(pct: int): (b: Band)
    ensures b == Green <==> pct < 60
    ensures b == Red <==> pct >= 85
  {
    if pct < 60 then Green else if pct < 85 then Orange else Red
  }

  /** An opaque colour as red, green and blue components. */
  datatype Rgb = Rgb(red: real, green: real, blue: real)

  /** The solid colour of each band. */
  function BandColor(b: Band): Rgb {
    match b
    case Green => Rgb(0.13, 0.77, 0.29)
    case Orange => Rgb(0.98, 0.60, 0.09)
    case Red => Rgb(0.94, 0.27, 0.27)
  }

  /** `nsColorForPct`, the colour of a percentage in the menu bar. */
  function NsColorForPct(pct: int): (c: Rgb)
    ensures c == BandColor(BandOf(pct))
  {
    if pct < 60 then Rgb(0.13, 0.77, 0.29)
    else if pct < 85 then Rgb(0.98, 0.60, 0.09)
    else Rgb(0.94, 0.27, 0.27)
  }

  /** `colorForPct`, the colour of a percentage in the popover: the same as in the menu bar. */
  function ColorForPct(pct: int): (c: Rgb)
    ensures c == BandColor(BandOf(pct))
    ensures c == NsColorForPct(pct)
  {
    if pct < 60 then Rgb(0.13, 0.77, 0.29)
    else if pct < 85 then Rgb(0.98, 0.60, 0.09)
    else Rgb(0.94, 0.27, 0.27)
  }

  /** The text `menuBarImage` draws: "--" without a configuration or after an error. */
  const UnavailableText: string := "--"

  /** `MenuBarViewModel`: the fields the menu bar and its settings depend on. */
  class MenuBarViewModel {
    var fiveHourPct: int
    var sevenDayPct: int
    var sonnetPct: int
    var fiveHourReset: string
    var hasError: bool
    var hasConfig: bool
    var pinnedMetrics: set<MetricID>
    /** The `pinnedMetrics` entry of the user defaults. */
    var savedPinned: Option<seq<string>>

    /**
     * `init`: the pinned set comes from the user defaults; `hasConfig` says whether a
     * configuration was found; `loadCached` then applies `update(from:)` to the cached usage,
     * if there is one, at time `now`.  Setting the pinned set here does not save it.
     */
    constructor (saved: Option<seq<string>>, configured: bool, cached: Option<UsageResponse>, now: real)
      ensures pinnedMetrics == PinnedFrom(saved) && savedPinned == saved
      ensures hasConfig == configured && !hasError
      ensures cached.None? ==>
        fiveHourPct == 0 && sevenDayPct == 0 && sonnetPct == 0 && fiveHourReset == ""
      ensures cached.Some? ==>
        fiveHourPct == TruncateToInt(Utilization(cached.value.fiveHour)) &&
        sevenDayPct == TruncateToInt(Utilization(cached.value.sevenDay)) &&
        sonnetPct == TruncateToInt(Utilization(cached.value.sevenDaySonnet)) &&
        fiveHourReset == MenuResetText(ResetsAt(cached.value.fiveHour), now)
    {
      var pinned: set<MetricID>;
      if saved.Some? {
        pinned := set i | 0 <= i < |saved.value| && FromRawValue(saved.value[i]).Some? ::
          FromRawValue(saved.value[i]).value;
      } else {
        pinned := {FiveHour, SevenDay};
      }
      pinnedMetrics := pinned;
      savedPinned := saved;
      hasConfig := configured;
      hasError := false;
      fiveHourPct, sevenDayPct, sonnetPct := 0, 0, 0;
      fiveHourReset := "";
      new;
      if cached.Some? {
        Update(cached.value, now);
      }
    }

    function Pcts(): Percentages
      reads this
    {
      Percentages(fiveHourPct, sevenDayPct, sonnetPct)
    }

    /** `pct(for:)`. */
    function Pct(m: MetricID): (p: int)
      reads this
      ensures m == FiveHour ==> p == fiveHourPct
      ensures m == SevenDay ==> p == sevenDayPct
      ensures m == Sonnet ==> p == sonnetPct
    {
      Pcts().For(m)
    }

    /** Assigning `pinnedMetrics`, whose observer saves it. */
    method SetPinned(pinned: set<MetricID>)
      modifies this
      ensures pinnedMetrics == pinned && savedPinned == Some(SavedList(pinned))
      ensures fiveHourPct == old(fiveHourPct) && sevenDayPct == old(sevenDayPct) && sonnetPct == old(sonnetPct)
      ensures fiveHourReset == old(fiveHourReset) && hasError == old(hasError) && hasConfig == old(hasConfig)
    {
      pinnedMetrics := pinned;
      savedPinned := Some(SavedList(pinned));
    }

    /** `toggleMetric`: the set is assigned, and so saved, only when it changes. */
    method ToggleMetric(m: MetricID)
      modifies this
      ensures pinnedMetrics == Toggled(old(pinnedMetrics), m)
      ensures savedPinned == if pinnedMetrics == old(pinnedMetrics) then old(savedPinned) else Some(SavedList(pinnedMetrics))
      ensures fiveHourPct == old(fiveHourPct) && sevenDayPct == old(sevenDayPct) && sonnetPct == old(sonnetPct)
      ensures fiveHourReset == old(fiveHourReset) && hasError == old(hasError) && hasConfig == old(hasConfig)
    {
      if m in pinnedMetrics {
        if |pinnedMetrics| > 1 {
          SetPinned(pinnedMetrics - {m});
        }
      } else {
        SetPinned(pinnedMetrics + {m});
      }
    }

    /**
     * `update(from:)`: the truncated utilisations, missing buckets counting as zero, and the
     * countdown to the five-hour reset at time `now`.
     */
    method Update(usage: UsageResponse, now: real)
      modifies this
      ensures fiveHourPct == TruncateToInt(Utilization(usage.fiveHour))
      ensures sevenDayPct == TruncateToInt(Utilization(usage.sevenDay))
      ensures sonnetPct == TruncateToInt(Utilization(usage.sevenDaySonnet))
      ensures fiveHourReset == MenuResetText(ResetsAt(usage.fiveHour), now)
      ensures pinnedMetrics == old(pinnedMetrics) && savedPinned == old(savedPinned)
      ensures hasError == old(hasError) && hasConfig == old(hasConfig)
    {
      fiveHourPct := TruncateToInt(Utilization(usage.fiveHour));
      sevenDayPct := TruncateToInt(Utilization(usage.sevenDay));
      sonnetPct := TruncateToInt(Utilization(usage.sevenDaySonnet));
      var reset := ResetsAt(usage.fiveHour);
      if reset.Some? {
        var diff := reset.value - now;
        if diff > 0.0 {
          var h := TruncateToInt(diff) / 3600;
          var m := (TruncateToInt(diff) % 3600) / 60;
          fiveHourReset := HoursMinutesText(h, m);
        } else {
          fiveHourReset := ResetNowText;
        }
      } else {
        fiveHourReset := "";
      }
    }

    /**
     * The text `menuBarImage` draws: "--" exactly when there is no configuration or the last
     * refresh failed, and otherwise the pinned metrics in display order with their percentages.
     */
    function MenuBarText(): (t: string)
      reads this
      ensures t == UnavailableText <==> !hasConfig || hasError
      ensures hasConfig && !hasError ==>
        ReadEntries(t) == Some(Shown(OrderedPinned(pinnedMetrics), Pcts()))
    {
      if !hasConfig || hasError then UnavailableText
      else
        MetricsTextReadsBack(OrderedPinned(pinnedMetrics), Pcts());
        MetricsText(OrderedPinned(pinnedMetrics), Pcts())
    }
  }
}
