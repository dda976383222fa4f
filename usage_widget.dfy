/**
 * The usage widget (ClaudeUsageWidget/UsageWidgetView.swift): which view a timeline entry
 * shows, the gauges it draws for the buckets present, the countdown under the session gauge,
 * and the colour band and fill of each gauge.
 */
module UsageWidget {
  import opened Base
  import opened Text
  import opened Usage
  import MenuBar

  /** A timeline entry, reduced to what the view reads (ClaudeUsageWidget/UsageEntry.swift). */
  datatype UsageEntry = UsageEntry(usage: Option<UsageResponse>, error: Option<string>, isStale: bool)

  /** The widget sizes; every family but the large one gets the medium layout. */
  datatype WidgetFamily = SystemSmall | SystemMedium | SystemLarge | OtherFamily

  /** What `body` draws. */
  datatype WidgetView =
    | ErrorView(message: string)
    | LargeContent(usage: UsageResponse)
    | MediumContent(usage: UsageResponse)
    | Placeholder

  /**
   * `body`: the error only when there is no usage to show, the content for the family when
   * there is, and the placeholder when there is neither.
   */
  function SelectView(entry: UsageEntry, family: WidgetFamily): (v: WidgetView)
    ensures v.ErrorView? <==> entry.error.Some? && entry.usage.None?
    ensures v.ErrorView? ==> v.message == entry.error.value
    ensures v.LargeContent? <==> entry.usage.Some? && family == SystemLarge
    ensures v.MediumContent? <==> entry.usage.Some? && family != SystemLarge
    ensures (v.LargeContent? || v.MediumContent?) ==> v.usage == entry.usage.value
    ensures v.Placeholder? <==> entry.error.None? && entry.usage.None?
  {
    if entry.error.Some? && entry.usage.None? then ErrorView(entry.error.value)
    else if entry.usage.Some? then
      match family
      case SystemLarge => LargeContent(entry.usage.value)
      case _ => MediumContent(entry.usage.value)
    else Placeholder
  }

  /** The three gauges, in the order they are laid out. */
  datatype Slot = Session | Weekly | SonnetWeekly

  function SlotRank(s: Slot): nat {
    match s
    case Session => 0
    case Weekly => 1
    case SonnetWeekly => 2
  }

  /** The bucket a gauge reads. */
  function BucketOf(usage: UsageResponse, s: Slot): Option<UsageBucket> {
    match s
    case Session => usage.fiveHour
    case Weekly => usage.sevenDay
    case SonnetWeekly => usage.sevenDaySonnet
  }

  /** The localized label keys of the gauges in the medium and the large layout. */
  function MediumLabel(s: Slot): string {
    match s
    case Session => "widget.session"
    case Weekly => "widget.weekly"
    case SonnetWeekly => "widget.sonnet"
  }

  function LargeLabel(s: Slot): string {
    match s
    case Session => "widget.session"
    case Weekly => "widget.weekly.full"
    case SonnetWeekly => "widget.sonnet"
  }

  /** The line under a gauge: the session countdown, or the weekday and time of a weekly reset. */
  datatype ResetInfo = Countdown(text: string) | WeekdayTime(date: Option<real>)

  /** One gauge: which bucket, its reset line and its utilisation. */
  datatype Gauge = Gauge(slot: Slot, reset: ResetInfo, utilization: real)

  /** The gauge of one present bucket, as both layouts build it. */
  function GaugeFor(s: Slot, bucket: UsageBucket, now: real): Gauge {
    Gauge(s, if s == Session then Countdown(FormatResetTime(bucket.resetsAt, now)) else WeekdayTime(bucket.resetsAt),
          bucket.utilization)
  }

  /**
   * The gauges of `mediumUsageContent` and `largeUsageContent`: one per present bucket, in
   * the order session, weekly, Sonnet.
   */
  function Gauges(usage: UsageResponse, now: real): seq<Gauge> {
    Present(usage, Session, now) + Present(usage, Weekly, now) + Present(usage, SonnetWeekly, now)
  }

  /** The gauge of slot `s`, when its bucket is present. */
  function Present(usage: UsageResponse, s: Slot, now: real): (g: seq<Gauge>)
    ensures |g| <= 1
    ensures |g| == 1 <==> BucketOf(usage, s).Some?
    ensures |g| == 1 ==> g[0] == GaugeFor(s, BucketOf(usage, s).value, now) && g[0].slot == s
  {
    if BucketOf(usage, s).Some? then [GaugeFor(s, BucketOf(usage, s).value, now)] else []
  }

  /** Each gauge at position `i` comes from one of the three slots, in layout order. */
  lemma GaugeAt(usage: UsageResponse, now: real, i: nat)
    requires i < |Gauges(usage, now)|
    ensures var a, b := Present(usage, Session, now), Present(usage, Weekly, now);
      Gauges(usage, now)[i] ==
        if i < |a| then a[i] else if i < |a| + |b| then b[i - |a|] else Present(usage, SonnetWeekly, now)[i - |a| - |b|]
  {
  }

  /** There is a gauge for a slot exactly when its bucket is present. */
  lemma GaugesCoverPresent(usage: UsageResponse, now: real, s: Slot)
    ensures (exists i | 0 <= i < |Gauges(usage, now)| :: Gauges(usage, now)[i].slot == s) <==> BucketOf(usage, s).Some?
  {
    var g, a, b := Gauges(usage, now), Present(usage, Session, now), Present(usage, Weekly, now);
    if BucketOf(usage, s).Some? {
      var k := match s case Session => 0 case Weekly => |a| case SonnetWeekly => |a| + |b|;
      GaugeAt(usage, now, k);
      assert g[k].slot == s;
    } else {
      forall i | 0 <= i < |g| ensures g[i].slot != s {
        GaugeAt(usage, now, i);
      }
    }
  }

  /** The gauges follow the layout order, and each shows its own bucket. */
  lemma GaugesInOrder(usage: UsageResponse, now: real)
    ensures var g := Gauges(usage, now);
      && (forall i, j | 0 <= i < j < |g| :: SlotRank(g[i].slot) < SlotRank(g[j].slot))
      && (forall i | 0 <= i < |g| ::
            && BucketOf(usage, g[i].slot).Some?
            && g[i] == GaugeFor(g[i].slot, BucketOf(usage, g[i].slot).value, now))
  {
    var g, a, b := Gauges(usage, now), Present(usage, Session, now), Present(usage, Weekly, now);
    forall i | 0 <= i < |g|
      ensures SlotRank(g[i].slot) == (if i < |a| then 0 else if i < |a| + |b| then 1 else 2)
      ensures BucketOf(usage, g[i].slot).Some? && g[i] == GaugeFor(g[i].slot, BucketOf(usage, g[i].slot).value, now)
    {
      GaugeAt(usage, now, i);
    }
  }

  const SoonText: string := "widget.soon"

  /**
   * `formatResetTime`: nothing without a date, "soon" once the reset is past, otherwise the
   * whole hours and the zero-padded minutes of the last hour, or the minutes alone.
   */
  function FormatResetTime(resetsAt: Option<real>, now: real): (r: string)
    ensures r == "" <==> resetsAt.None?
    ensures r == SoonText <==> resetsAt.Some? && resetsAt.value - now <= 0.0
    ensures resetsAt.Some? && resetsAt.value - now > 0.0 ==> IsDigit(r[0])
  {
    match resetsAt
    case None => ""
    case Some(reset) =>
      var interval := reset - now;
      if interval > 0.0 then
        var seconds := TruncateToInt(interval);
        var hours, minutes := seconds / 3600, (seconds % 3600) / 60;
        var t := if hours > 0 then IntToString(hours) + ("h" + ZeroPad2(minutes)) else IntToString(minutes) + " min";
        assert t[0] != SoonText[0];
        t
      else SoonText
  }

  /** Reads the countdown back from the text of `formatResetTime`. */
  function ReadResetTime(s: string): Option<MenuBar.ResetShown> {
    match ReadNat(s)
    case Some((a, rest)) =>
      if |rest| == 3 && rest[0] == 'h' then
        match ReadNat(rest[1..])
        case None => None
        case Some((b, rest2)) => if rest2 == "" then Some(MenuBar.ResetIn(a, b)) else None
      else if rest == " min" then Some(MenuBar.ResetIn(0, a))
      else None
    case None =>
      if s == "" then Some(MenuBar.NoReset)
      else if s == SoonText then Some(MenuBar.ResetNow)
      else None
  }

  lemma HoursReadBack(h: nat, m: nat)
    requires m < 60
    ensures ReadResetTime(NatToString(h) + ("h" + ZeroPad2(m))) == Some(MenuBar.ResetIn(h, m))
  {
    var digits := ZeroPad2(m);
    var rest := "h" + digits;
    assert |digits| == 2 && |rest| == 3 && rest[0] == 'h';
    ReadNatToString(h, rest);
    assert rest[1..] == digits + "";
    ReadZeroPad2(m, "");
    assert ReadNat(rest[1..]) == Some((m, ""));
  }

  lemma MinutesReadBack(m: nat)
    ensures ReadResetTime(NatToString(m) + " min") == Some(MenuBar.ResetIn(0, m))
  {
    ReadNatToString(m, " min");
  }

  /**
   * The widget's session countdown shows the same hours and minutes as the menu bar's
   * (`MenuBar.ResetCountdown`), "soon" exactly when the menu bar says "now", and nothing
   * exactly when there is no reset date.
   */
  lemma ResetTimeReadsBack(resetsAt: Option<real>, now: real)
    ensures ReadResetTime(FormatResetTime(resetsAt, now)) == Some(MenuBar.ResetCountdown(resetsAt, now))
  {
    match resetsAt
    case None =>
    case Some(reset) =>
      if reset - now > 0.0 {
        var seconds := TruncateToInt(reset - now);
        var h, m := seconds / 3600, (seconds % 3600) / 60;
        assert MenuBar.ResetCountdown(resetsAt, now) == MenuBar.ResetIn(h, m);
        if h > 0 {
          assert FormatResetTime(resetsAt, now) == NatToString(h) + ("h" + ZeroPad2(m));
          HoursReadBack(h, m);
        } else {
          assert FormatResetTime(resetsAt, now) == NatToString(m) + " min";
          MinutesReadBack(m);
        }
      } else {
        assert FormatResetTime(resetsAt, now) == SoonText;
        assert ReadNat(SoonText).None?;
      }
  }

  /** The colour band of a utilisation, with the widget's thresholds `>= 85` and `>= 60`. */
  function WidgetBand(utilization: real): MenuBar.Band {
    if utilization >= 85.0 then MenuBar.Red
    else if utilization >= 60.0 then MenuBar.Orange
    else MenuBar.Green
  }

  /**
   * The widget's band of a utilisation is the menu bar's band of the percentage it shows,
   * `Int(utilization)`: truncation never moves a value across 60 or 85.
   */
  lemma WidgetBandMatchesMenuBar(utilization: real)
    ensures WidgetBand(utilization) == MenuBar.BandOf(TruncateToInt(utilization))
  {
  }

  /** The two hex colours of each band's gradient. */
  function BandGradient(b: MenuBar.Band): seq<string> {
    match b
    case Red => ["#EF4444", "#DC2626"]
    case Orange => ["#F97316", "#FB923C"]
    case Green => ["#22C55E", "#4ADE80"]
  }

  /** `ringGradient` of `CircularUsageView`. */
  function RingGradient(utilization: real): (colors: seq<string>)
    ensures colors == BandGradient(WidgetBand(utilization))
  {
    if utilization >= 85.0 then ["#EF4444", "#DC2626"]
    else if utilization >= 60.0 then ["#F97316", "#FB923C"]
    else ["#22C55E", "#4ADE80"]
  }

  /** `barGradient` of `LargeUsageBarView`: the same colours as the ring. */
  function BarGradient(utilization: real): (colors: seq<string>)
    ensures colors == BandGradient(WidgetBand(utilization))
    ensures colors == RingGradient(utilization)
  {
    if utilization >= 85.0 then ["#EF4444", "#DC2626"]
    else if utilization >= 60.0 then ["#F97316", "#FB923C"]
    else ["#22C55E", "#4ADE80"]
  }

  /** `accentColor` of `LargeUsageBarView`: the first colour of the bar's gradient. */
  function AccentColor(utilization: real): (color: string)
    ensures color == BandGradient(WidgetBand(utilization))[0]
    ensures color == BarGradient(utilization)[0]
  {
    if utilization >= 85.0 then "#EF4444"
    else if utilization >= 60.0 then "#F97316"
    else "#22C55E"
  }

  function MinReal(a: real, b: real): real {
    if a <= b then a else b
  }

  /** The fraction of the ring drawn: `min(utilization, 100) / 100`. */
  function RingTrim(utilization: real): (fraction: real)
    ensures fraction <= 1.0
    ensures utilization >= 0.0 ==> fraction >= 0.0
    ensures utilization <= 100.0 ==> fraction * 100.0 == utilization
  {
    MinReal(utilization, 100.0) / 100.0
  }

  /** The width of the filled bar: `max(0, width * min(utilization, 100) / 100)`. */
  function BarWidth(width: real, utilization: real): (w: real)
    ensures w >= 0.0
  {
    var raw := width * MinReal(utilization, 100.0) / 100.0;
    if raw >= 0.0 then raw else 0.0
  }

  /** The filled bar never overflows its track, and fills it in proportion up to 100%. */
  lemma BarWidthWithinTrack(width: real, utilization: real)
    requires width >= 0.0
    ensures BarWidth(width, utilization) <= width
    ensures 0.0 <= utilization <= 100.0 ==> BarWidth(width, utilization) == width * utilization / 100.0
  {
    var m := MinReal(utilization, 100.0);
    if m >= 0.0 {
      assert width * m <= width * 100.0 by {
        assert width * (100.0 - m) >= 0.0;
      }
    } else {
      assert width * m <= 0.0 by {
        assert width * (-m) >= 0.0;
      }
    }
  }
}
