/**
 * The pacing widget (ClaudeUsageWidget/PacingWidgetView.swift): when it shows the pacing
 * gauge, the signed delta in its centre, and the time left until the weekly reset.
 */
module PacingWidget {
  import opened Base
  import opened Text
  import opened Usage

  /**
   * What `PacingCalculator.calculate` returns, reduced to what the view reads; the zone and
   * the message are opaque here.
   */
  datatype PacingResult = PacingResult(
    actualUsage: real,
    expectedUsage: real,
    delta: real,
    message: string,
    resetDate: Option<real>)

  /** What `body` draws. */
  datatype PacingView = PacingContent(pacing: PacingResult) | PacingPlaceholder

  /**
   * `body`: the pacing content only when there is usage and the calculator, a function not
   * part of this model, gives a result for it.
   */
  function SelectPacingView(usage: Option<UsageResponse>, calculate: UsageResponse -> Option<PacingResult>)
    : (v: PacingView)
    ensures v.PacingContent? <==> usage.Some? && calculate(usage.value).Some?
    ensures v.PacingContent? ==> v.pacing == calculate(usage.value).value
  {
    if usage.Some? && calculate(usage.value).Some? then PacingContent(calculate(usage.value).value)
    else PacingPlaceholder
  }

  /**
   * The delta in the centre of the gauge: `+` before non-negative deltas, then `Int(delta)`
   * and a percent sign.  A delta strictly between -1 and 0 truncates to 0 and shows no sign.
   */
  function DeltaText(delta: real): (s: string)
    ensures |s| >= 2 && s[|s| - 1] == '%'
    ensures s[0] == '+' <==> delta >= 0.0
    ensures s[0] == '-' <==> delta <= -1.0
  {
    var sign := if delta >= 0.0 then "+" else "";
    sign + IntToString(TruncateToInt(delta)) + "%"
  }

  /** The number in the delta text, read after the optional `+`, is the truncated delta. */
  lemma DeltaReadsBack(delta: real)
    ensures var s := DeltaText(delta);
      ReadInt(if s[0] == '+' then s[1..] else s) == Some((TruncateToInt(delta), "%"))
  {
    var n := IntToString(TruncateToInt(delta));
    var s := DeltaText(delta);
    ReadIntToString(TruncateToInt(delta), "%");
    if delta >= 0.0 {
      assert s == "+" + (n + "%");
      assert s[1..] == n + "%";
    } else {
      assert s == n + "%";
    }
  }

  /** The reset line appears only for a reset date still in the future. */
  function ResetLineVisible(resetDate: Option<real>, now: real): (visible: bool)
    ensures visible <==> resetDate.Some? && resetDate.value > now
    ensures visible ==> PacingCountdown(resetDate.value, now) != Soon
  {
    resetDate.Some? && resetDate.value - now > 0.0
  }

  /** What the reset line of the pacing widget shows. */
  datatype PacingReset = Soon | DaysHours(days: nat, hours: nat) | HoursMinutes(hours: nat, minutes: nat)

  /**
   * The time left until `reset`: "soon" once it is past, whole days and the hours of the
   * last day when a day or more is left, otherwise hours and the minutes of the last hour.
   */
  function PacingCountdown(reset: real, now: real): (r: PacingReset)
    ensures r.Soon? <==> reset - now <= 0.0
  {
    var interval := reset - now;
    if interval > 0.0 then
      var seconds := TruncateToInt(interval);
      if seconds / 86400 > 0 then DaysHours(seconds / 86400, (seconds % 86400) / 3600)
      else HoursMinutes((seconds % 86400) / 3600, (seconds % 3600) / 60)
    else Soon
  }

  /** Whole seconds as days, the hours of the last day and the minutes of the last hour. */
  lemma SplitDays(seconds: nat)
    ensures var d, h, m := seconds / 86400, (seconds % 86400) / 3600, (seconds % 3600) / 60;
      && h < 24 && m < 60
      && d * 86400 + h * 3600 <= seconds < d * 86400 + h * 3600 + 3600
      && (d == 0 ==> h * 3600 + m * 60 <= seconds < h * 3600 + m * 60 + 60)
  {
    var d, r := seconds / 86400, seconds % 86400;
    assert seconds == d * 86400 + r;
    assert r == (r / 3600) * 3600 + r % 3600;
    var q := seconds % 3600;
    assert seconds == (seconds / 3600) * 3600 + q;
    assert q == (q / 60) * 60 + q % 60;
  }

  /**
   * The fields of the countdown stay in range and describe the time left: less than a day
   * gives hours and minutes rounded down to the minute; more gives days and hours rounded
   * down to the hour.
   */
  lemma PacingCountdownBounds(reset: real, now: real)
    ensures var r := PacingCountdown(reset, now);
      && (r.DaysHours? ==>
        && r.days >= 1 && r.hours < 24
        && ((r.days * 86400 + r.hours * 3600) as real) <= reset - now
        && reset - now < ((r.days * 86400 + r.hours * 3600 + 3600) as real))
      && (r.HoursMinutes? ==>
        && r.hours < 24 && r.minutes < 60
        && ((r.hours * 3600 + r.minutes * 60) as real) <= reset - now
        && reset - now < ((r.hours * 3600 + r.minutes * 60 + 60) as real))
  {
    if reset - now > 0.0 {
      SplitDays(TruncateToInt(reset - now));
    }
  }

  const SoonText: string := "widget.soon"

  /** `formatResetDate`: `"2j 5h"`, `"5h07"` or the localized "soon". */
  function FormatResetDate(reset: real, now: real): (r: string)
    ensures r == SoonText <==> reset - now <= 0.0
    ensures reset - now > 0.0 ==> |r| > 0 && IsDigit(r[0])
  {
    var interval := reset - now;
    if interval > 0.0 then
      var seconds := TruncateToInt(interval);
      var days := seconds / 86400;
      var hours := (seconds % 86400) / 3600;
      var t := if days > 0 then IntToString(days) + ("j " + (IntToString(hours) + "h"))
        else IntToString(hours) + ("h" + ZeroPad2((seconds % 3600) / 60));
      assert t[0] != SoonText[0];
      t
    else SoonText
  }

  /** Reads the reset line back from its text. */
  function ReadResetDate(s: string): Option<PacingReset> {
    match ReadNat(s)
    case Some((a, rest)) =>
      if |rest| >= 2 && rest[0] == 'j' && rest[1] == ' ' then
        match ReadNat(rest[2..])
        case None => None
        case Some((b, rest2)) => if rest2 == "h" then Some(DaysHours(a, b)) else None
      else if |rest| == 3 && rest[0] == 'h' then
        match ReadNat(rest[1..])
        case None => None
        case Some((b, rest2)) => if rest2 == "" then Some(HoursMinutes(a, b)) else None
      else None
    case None => if s == SoonText then Some(Soon) else None
  }

  lemma DaysHoursReadBack(d: nat, h: nat)
    ensures ReadResetDate(NatToString(d) + ("j " + (NatToString(h) + "h"))) == Some(DaysHours(d, h))
  {
    var rest := "j " + (NatToString(h) + "h");
    assert rest[0] == 'j' && rest[1] == ' ';
    ReadNatToString(d, rest);
    assert rest[2..] == NatToString(h) + "h";
    ReadNatToString(h, "h");
  }

  lemma HoursMinutesReadBack(h: nat, m: nat)
    requires m < 60
    ensures ReadResetDate(NatToString(h) + ("h" + ZeroPad2(m))) == Some(HoursMinutes(h, m))
  {
    var digits := ZeroPad2(m);
    var rest := "h" + digits;
    assert |digits| == 2 && |rest| == 3 && rest[0] == 'h' && rest[1] != 'j';
    ReadNatToString(h, rest);
    assert rest[1..] == digits + "";
    ReadZeroPad2(m, "");
    assert ReadNat(rest[1..]) == Some((m, ""));
  }

  /** The reset line shows exactly the countdown. */
  lemma ResetDateReadsBack(reset: real, now: real)
    ensures ReadResetDate(FormatResetDate(reset, now)) == Some(PacingCountdown(reset, now))
  {
    if reset - now > 0.0 {
      var seconds := TruncateToInt(reset - now);
      var d, h, m := seconds / 86400, (seconds % 86400) / 3600, (seconds % 3600) / 60;
      SplitDays(seconds);
      if d > 0 {
        assert FormatResetDate(reset, now) == NatToString(d) + ("j " + (NatToString(h) + "h"));
        assert PacingCountdown(reset, now) == DaysHours(d, h);
        DaysHoursReadBack(d, h);
      } else {
        assert FormatResetDate(reset, now) == NatToString(h) + ("h" + ZeroPad2(m));
        assert PacingCountdown(reset, now) == HoursMinutes(h, m);
        HoursMinutesReadBack(h, m);
      }
    } else {
      assert FormatResetDate(reset, now) == SoonText;
      assert ReadNat(SoonText).None?;
    }
  }
}
