/**
 * Colour and date helpers shared by the app and the widgets (Shared/Extensions.swift): a
 * colour from a hex string such as "#F97316", the user's custom colour with its default, and
 * the French "time ago" text of a date.
 */
module Extensions {
  import opened Base
  import opened Text

  /** `s` without the `#` characters at either end: `trimmingCharacters(in: "#")`. */
  function TrimHashes(s: string): (r: string)
    ensures r == [] || (r[0] != '#' && r[|r| - 1] != '#')
    ensures |r| <= |s|
  {
    DropTrailingHashes(DropLeadingHashes(s))
  }

  function DropLeadingHashes(s: string): (r: string)
    ensures |r| <= |s|
    ensures r == [] || r[0] != '#'
  {
    if s != [] && s[0] == '#' then DropLeadingHashes(s[1..]) else s
  }

  function DropTrailingHashes(s: string): (r: string)
    ensures |r| <= |s|
    ensures r == [] || r[|r| - 1] != '#'
    ensures s != [] && s[0] != '#' ==> r != [] && r[0] == s[0]
  {
    if s != [] && s[|s| - 1] == '#' then DropTrailingHashes(s[..|s| - 1]) else s
  }

  /** `k` hash characters. */
  function Hashes(k: nat): (h: string)
    ensures |h| == k
  {
    if k == 0 then [] else "#" + Hashes(k - 1)
  }

  lemma {:induction false} DropLeadingOfHashed(k: nat, x: string)
    requires x == [] || x[0] != '#'
    ensures DropLeadingHashes(Hashes(k) + x) == x
  {
    if k > 0 {
      DropLeadingStep(k, x);
      DropLeadingOfHashed(k - 1, x);
    } else {
      assert Hashes(k) + x == x;
    }
  }

  lemma {:induction false} DropTrailingOfHashed(x: string, k: nat)
    requires x == [] || x[|x| - 1] != '#'
    ensures DropTrailingHashes(x + Hashes(k)) == x
  {
    if k > 0 {
      DropTrailingStep(x, k);
      DropTrailingOfHashed(x, k - 1);
    } else {
      assert x + Hashes(k) == x;
    }
  }

  /** One leading hash fewer. */
  lemma DropLeadingStep(k: nat, x: string)
    requires k > 0
    ensures DropLeadingHashes(Hashes(k) + x) == DropLeadingHashes(Hashes(k - 1) + x)
  {
    var s := Hashes(k) + x;
    assert s == "#" + (Hashes(k - 1) + x);
    assert s[0] == '#' && s[1..] == Hashes(k - 1) + x;
  }

  /** One trailing hash fewer. */
  lemma DropTrailingStep(x: string, k: nat)
    requires k > 0
    ensures DropTrailingHashes(x + Hashes(k)) == DropTrailingHashes(x + Hashes(k - 1))
  {
    var s := x + Hashes(k);
    HashesSnoc(k - 1);
    assert s == (x + Hashes(k - 1)) + "#";
    assert s[|s| - 1] == '#' && s[..|s| - 1] == x + Hashes(k - 1);
  }

  lemma {:induction false} HashesSnoc(k: nat)
    ensures Hashes(k + 1) == Hashes(k) + "#"
  {
    if k > 0 {
      HashesSnoc(k - 1);
      assert Hashes(k + 1) == "#" + (Hashes(k - 1) + "#");
    }
  }

  /**
   * Trimming removes exactly the hashes around a text that neither starts nor ends with
   * one, however many there are on each side.
   */
  lemma TrimHashesOfHashed(before: nat, x: string, after: nat)
    requires x == [] || (x[0] != '#' && x[|x| - 1] != '#')
    ensures TrimHashes(Hashes(before) + x + Hashes(after)) == x
  {
    if x == [] {
      TrimOnlyHashes(before, after);
    } else {
      TrimAroundText(before, x, after);
    }
  }

  /** Runs of hashes with nothing between them trim to nothing. */
  lemma TrimOnlyHashes(before: nat, after: nat)
    ensures TrimHashes(Hashes(before) + [] + Hashes(after)) == []
  {
    var k := before + after;
    assert Hashes(before) + [] + Hashes(after) == Hashes(k) + [] by {
      HashesAppend(before, after);
    }
    DropLeadingOfHashed(k, []);
  }

  lemma TrimAroundText(before: nat, x: string, after: nat)
    requires x != [] && x[0] != '#' && x[|x| - 1] != '#'
    ensures TrimHashes(Hashes(before) + x + Hashes(after)) == x
  {
    var y := x + Hashes(after);
    assert Hashes(before) + x + Hashes(after) == Hashes(before) + y;
    assert y[0] == x[0];
    DropLeadingOfHashed(before, y);
    DropTrailingOfHashed(x, after);
  }

  lemma {:induction false} HashesAppend(a: nat, b: nat)
    ensures Hashes(a) + Hashes(b) == Hashes(a + b)
  {
    if a > 0 {
      HashesAppend(a - 1, b);
      assert Hashes(a) + Hashes(b) == "#" + (Hashes(a - 1) + Hashes(b));
    } else {
      assert Hashes(a) + Hashes(b) == Hashes(b);
    }
  }

  /** The value of a hexadecimal digit, either case. */
  function HexValue(c: char): (v: Option<bv64>)
    ensures v.Some? ==> v.value < 16
  {
    match c
    case '0' => Some(0)
    case '1' => Some(1)
    case '2' => Some(2)
    case '3' => Some(3)
    case '4' => Some(4)
    case '5' => Some(5)
    case '6' => Some(6)
    case '7' => Some(7)
    case '8' => Some(8)
    case '9' => Some(9)
    case 'a' => Some(10)
    case 'b' => Some(11)
    case 'c' => Some(12)
    case 'd' => Some(13)
    case 'e' => Some(14)
    case 'f' => Some(15)
    case 'A' => Some(10)
    case 'B' => Some(11)
    case 'C' => Some(12)
    case 'D' => Some(13)
    case 'E' => Some(14)
    case 'F' => Some(15)
    case _ => None
  }

  const MaxUInt64: bv64 := 0xFFFF_FFFF_FFFF_FFFF

  /** One more digit: shift it in, or stay at the largest value once the next shift overflows. */
  function ShiftIn(v: bv64, digit: bv64): bv64 {
    if v > 0x0FFF_FFFF_FFFF_FFFF then MaxUInt64 else (v << 4) | digit
  }

  /** The digits at the head of `s`, shifted into `v` one by one. */
  function Accumulate(v: bv64, s: string): bv64
    decreases |s|
  {
    if s == [] || HexValue(s[0]).None? then v else Accumulate(ShiftIn(v, HexValue(s[0]).value), s[1..])
  }

  predicate IsSpace(c: char) {
    c == ' ' || c == '\t' || c == '\n' || c == '\r'
  }

  function SkipSpaces(s: string): (r: string)
    ensures |r| <= |s|
  {
    if s != [] && IsSpace(s[0]) then SkipSpaces(s[1..]) else s
  }

  /** `s` after an optional `0x` or `0X` that is followed by a digit. */
  function SkipHexPrefix(s: string): string {
    if |s| >= 3 && s[0] == '0' && (s[1] == 'x' || s[1] == 'X') && HexValue(s[2]).Some? then s[2..] else s
  }

  /**
   * `Scanner.scanHexInt64`: after leading white space and an optional `0x`, the hexadecimal
   * number at the head of the text, saturating at the largest `UInt64`; None when no digit
   * is there.
   */
  function ScanHexInt64(s: string): (r: Option<bv64>)
    ensures r.None? <==> var t := SkipHexPrefix(SkipSpaces(s)); t == [] || HexValue(t[0]).None?
  {
    var digits := SkipHexPrefix(SkipSpaces(s));
    if digits == [] || HexValue(digits[0]).None? then None else Some(Accumulate(0, digits))
  }

  /** Below the saturation point a digit is appended exactly: it becomes the low nibble. */
  lemma ShiftInAppends(v: bv64, digit: bv64)
    requires v <= 0x0FFF_FFFF_FFFF_FFFF && digit < 16
    ensures ShiftIn(v, digit) >> 4 == v && ShiftIn(v, digit) & 0xF == digit
  {
  }

  /** Once the scan has saturated, further digits leave it at the largest `UInt64`. */
  lemma {:induction false} AccumulateStaysMax(s: string)
    ensures Accumulate(MaxUInt64, s) == MaxUInt64
    decreases |s|
  {
    if s != [] && HexValue(s[0]).Some? {
      assert ShiftIn(MaxUInt64, HexValue(s[0]).value) == MaxUInt64;
      AccumulateStaysMax(s[1..]);
    }
  }

  /** `rgbValue` after the scan: the number scanned, or the initial 0 when the scan fails. */
  function ScannedValue(s: string): bv64 {
    ScanHexInt64(s).GetOr(0)
  }

  /** The red, green and blue channels as bytes, before the division by 255. */
  datatype Channels = Channels(red: bv64, green: bv64, blue: bv64)

  /**
   * The three masks and shifts: each channel is a byte, and together they hold exactly the
   * low 24 bits of the value.
   */
  function ChannelsOf(v: bv64): (c: Channels)
    ensures c.red <= 0xFF && c.green <= 0xFF && c.blue <= 0xFF
    ensures c.red * 0x1_0000 + c.green * 0x100 + c.blue == v % 0x100_0000
  {
    Channels((v & 0xFF0000) >> 16, (v & 0x00FF00) >> 8, v & 0x0000FF)
  }

  /** Only the low 24 bits of the scanned value decide the colour. */
  lemma ChannelsLow24(v: bv64, w: bv64)
    requires v % 0x100_0000 == w % 0x100_0000
    ensures ChannelsOf(v) == ChannelsOf(w)
  {
  }

  /** `Color(hex:)`: trim the hashes, scan, and take the channels. */
  function ColorFromHex(hex: string): (c: Channels)
    ensures c.red <= 0xFF && c.green <= 0xFF && c.blue <= 0xFF
    ensures ScanHexInt64(TrimHashes(hex)).None? ==> c == Channels(0, 0, 0)
  {
    ChannelsOf(ScannedValue(TrimHashes(hex)))
  }

  /** A six-digit value scans to the bytes its digit pairs spell. */
  lemma SixDigitsChannels(d0: bv64, d1: bv64, d2: bv64, d3: bv64, d4: bv64, d5: bv64)
    requires d0 < 16 && d1 < 16 && d2 < 16 && d3 < 16 && d4 < 16 && d5 < 16
    ensures var v := ShiftIn(ShiftIn(ShiftIn(ShiftIn(ShiftIn(ShiftIn(0, d0), d1), d2), d3), d4), d5);
      ChannelsOf(v) == Channels((d0 << 4) | d1, (d2 << 4) | d3, (d4 << 4) | d5)
  {
  }

  /** Six hex digits shifted in one by one, followed by whatever stops the scan. */
  lemma AccumulateSix(s: string)
    requires |s| == 6 && forall i | 0 <= i < 6 :: HexValue(s[i]).Some?
    ensures var d := seq(6, i requires 0 <= i < 6 => HexValue(s[i]).value);
      Accumulate(0, s) == ShiftIn(ShiftIn(ShiftIn(ShiftIn(ShiftIn(ShiftIn(0, d[0]), d[1]), d[2]), d[3]), d[4]), d[5])
  {
    var d := seq(6, i requires 0 <= i < 6 => HexValue(s[i]).value);
    var v1 := ShiftIn(0, d[0]);
    var v2 := ShiftIn(v1, d[1]);
    var v3 := ShiftIn(v2, d[2]);
    var v4 := ShiftIn(v3, d[3]);
    var v5 := ShiftIn(v4, d[4]);
    var v6 := ShiftIn(v5, d[5]);
    assert s[0..] == s;
    AccumulateStep(0, s, 0);
    AccumulateStep(v1, s, 1);
    AccumulateStep(v2, s, 2);
    AccumulateStep(v3, s, 3);
    AccumulateStep(v4, s, 4);
    AccumulateStep(v5, s, 5);
    assert s[6..] == [];
  }

  lemma AccumulateStep(v: bv64, s: string, k: nat)
    requires k < |s| && HexValue(s[k]).Some?
    ensures Accumulate(v, s[k..]) == Accumulate(ShiftIn(v, HexValue(s[k]).value), s[k + 1..])
  {
    assert s[k..][0] == s[k] && s[k..][1..] == s[k + 1..];
  }

  /**
   * `Color(hex: "#RRGGBB")` has the channels the three digit pairs spell, with or without the
   * leading hash.
   */
  lemma ColorFromHexDigits(hashes: nat, s: string)
    requires |s| == 6 && forall i | 0 <= i < 6 :: HexValue(s[i]).Some?
    ensures var d := seq(6, i requires 0 <= i < 6 => HexValue(s[i]).value);
      ColorFromHex(Hashes(hashes) + s) == Channels((d[0] << 4) | d[1], (d[2] << 4) | d[3], (d[4] << 4) | d[5])
  {
    TrimSixDigits(hashes, s);
    ScanSixDigits(s);
    AccumulateSix(s);
    var d := seq(6, i requires 0 <= i < 6 => HexValue(s[i]).value);
    SixDigitsChannels(d[0], d[1], d[2], d[3], d[4], d[5]);
  }

  lemma TrimSixDigits(hashes: nat, s: string)
    requires |s| == 6 && forall i | 0 <= i < 6 :: HexValue(s[i]).Some?
    ensures TrimHashes(Hashes(hashes) + s) == s
  {
    assert HexValue(s[0]).Some? && HexValue(s[5]).Some?;
    assert s[0] != '#' && s[5] != '#';
    TrimHashesOfHashed(hashes, s, 0);
    assert Hashes(hashes) + s + Hashes(0) == Hashes(hashes) + s;
  }

  lemma ScanSixDigits(s: string)
    requires |s| == 6 && forall i | 0 <= i < 6 :: HexValue(s[i]).Some?
    ensures ScanHexInt64(s) == Some(Accumulate(0, s))
  {
    assert HexValue(s[0]).Some? && HexValue(s[1]).Some?;
    assert !IsSpace(s[0]);
    assert SkipSpaces(s) == s;
    assert s[1] != 'x' && s[1] != 'X';
    assert SkipHexPrefix(s) == s;
  }

  const DefaultCustomColor: string := "#000000"

  /** `Color.customUserColor`: the stored hex string, or black when none is stored. */
  function CustomUserColor(stored: Option<string>): Channels {
    ColorFromHex(stored.GetOr(DefaultCustomColor))
  }

  /**
   * `NSColor.customUserColor`, written out separately in the source: it reads the same
   * channels as `Color.customUserColor`.
   */
  function NSCustomUserColor(stored: Option<string>): (c: Channels)
    ensures c == CustomUserColor(stored)
  {
    var hex := if stored.Some? then stored.value else DefaultCustomColor;
    var trimmed := TrimHashes(hex);
    var rgbValue := ScannedValue(trimmed);
    Channels((rgbValue & 0xFF0000) >> 16, (rgbValue & 0x00FF00) >> 8, rgbValue & 0x0000FF)
  }

  /** Without a stored colour both accessors give black. */
  lemma DefaultIsBlack()
    ensures CustomUserColor(None) == Channels(0, 0, 0)
    ensures NSCustomUserColor(None) == Channels(0, 0, 0)
  {
    var s := "000000";
    assert DefaultCustomColor == Hashes(1) + s;
    ColorFromHexDigits(1, s);
  }

  /** How long ago a date was, as `relativeFormatted` buckets it. */
  datatype Ago = JustNow | UnderAMinute | MinutesAgo(minutes: int) | HoursAgo(hours: int) | DaysAgo(days: int)

  /**
   * The bucket of an interval in seconds: nothing past for a non-positive one, then under a
   * minute, whole minutes under an hour, whole hours under a day, and whole days.
   */
  function RelativeBucket(interval: real): (a: Ago)
    ensures a.JustNow? <==> interval <= 0.0
    ensures a.UnderAMinute? <==> 0.0 < interval < 60.0
    ensures a.MinutesAgo? <==> 60.0 <= interval < 3600.0
    ensures a.HoursAgo? <==> 3600.0 <= interval < 86400.0
    ensures a.DaysAgo? <==> 86400.0 <= interval
  {
    if interval <= 0.0 then JustNow
    else if interval < 60.0 then UnderAMinute
    else if interval < 3600.0 then MinutesAgo(TruncateToInt(interval / 60.0))
    else if interval < 86400.0 then HoursAgo(TruncateToInt(interval / 3600.0))
    else DaysAgo(TruncateToInt(interval / 86400.0))
  }

  /**
   * The count shown is at least one and is the interval rounded down to its unit: fewer than
   * 60 minutes, fewer than 24 hours.
   */
  lemma RelativeBucketBounds(interval: real)
    ensures var a := RelativeBucket(interval);
      && (a.MinutesAgo? ==> 1 <= a.minutes < 60 && (a.minutes * 60) as real <= interval < (a.minutes * 60 + 60) as real)
      && (a.HoursAgo? ==> 1 <= a.hours < 24 && (a.hours * 3600) as real <= interval < (a.hours * 3600 + 3600) as real)
      && (a.DaysAgo? ==> 1 <= a.days && (a.days * 86400) as real <= interval < (a.days * 86400 + 86400) as real)
  {
  }

  const JustNowText: string := "a l'instant"
  const UnderAMinuteText: string := "il y a moins d'une minute"
  const AgoPrefix: string := "il y a "

  /** `relativeFormatted` of a date, `now` being the moment it is read. */
  function RelativeFormatted(date: real, now: real): (r: string)
    ensures r == JustNowText <==> now - date <= 0.0
    ensures r == UnderAMinuteText <==> 0.0 < now - date < 60.0
    ensures now - date >= 60.0 ==> |r| > 7 && r[..7] == AgoPrefix
  {
    var interval := now - date;
    if interval <= 0.0 then JustNowText
    else if interval < 60.0 then UnderAMinuteText
    else
      var count := if interval < 3600.0 then TruncateToInt(interval / 60.0)
        else if interval < 86400.0 then TruncateToInt(interval / 3600.0)
        else TruncateToInt(interval / 86400.0);
      var unit := if interval < 3600.0 then " min" else if interval < 86400.0 then " h" else " j";
      var t := AgoPrefix + (IntToString(count) + unit);
      assert t[7] == IntToString(count)[0] && t[7] != UnderAMinuteText[7] && t[0] != JustNowText[0];
      t
  }

  /** Reads the bucket back from the text. */
  function ReadRelative(s: string): Option<Ago> {
    if s == JustNowText then Some(JustNow)
    else if s == UnderAMinuteText then Some(UnderAMinute)
    else if |s| >= 7 && s[..7] == AgoPrefix then
      match ReadNat(s[7..])
      case None => None
      case Some((n, unit)) =>
        if unit == " min" then Some(MinutesAgo(n))
        else if unit == " h" then Some(HoursAgo(n))
        else if unit == " j" then Some(DaysAgo(n))
        else None
    else None
  }

  /** A count after the prefix, with its unit. */
  lemma ReadAgo(n: nat, unit: string)
    requires unit == " min" || unit == " h" || unit == " j"
    ensures var s := AgoPrefix + (NatToString(n) + unit);
      && s != JustNowText && s != UnderAMinuteText
      && |s| >= 7 && s[..7] == AgoPrefix && s[7..] == NatToString(n) + unit
      && ReadNat(s[7..]) == Some((n, unit))
  {
    var s := AgoPrefix + (NatToString(n) + unit);
    assert s[7] == NatToString(n)[0];
    assert UnderAMinuteText[7] == 'm';
    assert s[..7] == AgoPrefix && s[7..] == NatToString(n) + unit;
    ReadNatToString(n, unit);
  }

  /** The text of a date names its bucket. */
  lemma RelativeReadsBack(date: real, now: real)
    ensures ReadRelative(RelativeFormatted(date, now)) == Some(RelativeBucket(now - date))
  {
    var interval := now - date;
    if interval <= 0.0 {
      assert RelativeFormatted(date, now) == JustNowText;
    } else if interval < 60.0 {
      assert RelativeFormatted(date, now) == UnderAMinuteText;
      assert UnderAMinuteText != JustNowText;
    } else if interval < 3600.0 {
      MinutesAgoReadsBack(date, now);
    } else if interval < 86400.0 {
      HoursAgoReadsBack(date, now);
    } else {
      DaysAgoReadsBack(date, now);
    }
  }

  lemma MinutesAgoReadsBack(date: real, now: real)
    requires 60.0 <= now - date < 3600.0
    ensures ReadRelative(RelativeFormatted(date, now)) == Some(RelativeBucket(now - date))
  {
    var n := TruncateToInt((now - date) / 60.0);
    assert RelativeFormatted(date, now) == AgoPrefix + (NatToString(n) + " min");
    ReadAgoUnit(n, " min");
  }

  lemma HoursAgoReadsBack(date: real, now: real)
    requires 3600.0 <= now - date < 86400.0
    ensures ReadRelative(RelativeFormatted(date, now)) == Some(RelativeBucket(now - date))
  {
    var n := TruncateToInt((now - date) / 3600.0);
    assert RelativeFormatted(date, now) == AgoPrefix + (NatToString(n) + " h");
    ReadAgoUnit(n, " h");
  }

  lemma DaysAgoReadsBack(date: real, now: real)
    requires 86400.0 <= now - date
    ensures ReadRelative(RelativeFormatted(date, now)) == Some(RelativeBucket(now - date))
  {
    var n := TruncateToInt((now - date) / 86400.0);
    assert RelativeFormatted(date, now) == AgoPrefix + (NatToString(n) + " j");
    ReadAgoUnit(n, " j");
  }

  /** "il y a {n} min", "il y a {n} h" and "il y a {n} j" read back as their bucket and count. */
  lemma ReadAgoUnit(n: nat, unit: string)
    requires unit == " min" || unit == " h" || unit == " j"
    ensures ReadRelative(AgoPrefix + (NatToString(n) + unit)) ==
      Some(if unit == " min" then MinutesAgo(n) else if unit == " h" then HoursAgo(n) else DaysAgo(n))
  {
    ReadAgo(n, unit);
  }
}
