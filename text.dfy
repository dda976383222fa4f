/**
 * The pieces of Swift's standard library that the formatting code relies on, written out:
 * string interpolation of an `Int` (`"\(n)"`), `String(format: "%02d", n)`, the failable
 * `Int(String)` initializer and the truncating `Int(Double)` conversion.  Each rendering comes
 * with a reader that recovers the number, so that the formatters built on them can be shown
 * to lose nothing.
 */
module Text {
  import opened Base

  predicate IsDigit(c: char) {
    '0' <= c <= '9'
  }

  predicate AllDigits(s: string) {
    forall i :: 0 <= i < |s| ==> IsDigit(s[i])
  }

  function DigitChar(d: nat): (c: char)
    requires d < 10
    ensures IsDigit(c)
  {
    (48 + d) as char
  }

  function DigitValue(c: char): (d: nat)
    requires IsDigit(c)
    ensures d < 10
  {
    c as int - 48
  }

  /** `"\(n)"` for a non-negative `Int`: its decimal digits, without leading zeros. */
  function NatToString(n: nat): (s: string)
    ensures 1 <= |s| && AllDigits(s)
    ensures IsDigit(s[0]) && (|s| > 1 ==> s[0] != '0')
    ensures n < 10 ==> |s| == 1
    ensures 10 <= n < 100 ==> |s| == 2
  {
    if n < 10 then [DigitChar(n)] else NatToString(n / 10) + [DigitChar(n % 10)]
  }

  /** `"\(i)"` for any `Int`: a minus sign before the digits of a negative value. */
  function IntToString(i: int): (s: string)
    ensures 1 <= |s|
    ensures i >= 0 <==> IsDigit(s[0])
    ensures i < 0 <==> s[0] == '-'
  {
    if i < 0 then "-" + NatToString(-i) else NatToString(i)
  }

  /** `String(format: "%02d", n)` for a non-negative `Int`: at least two digits, zero-padded. */
  function ZeroPad2(n: nat): (s: string)
    ensures 2 <= |s| && AllDigits(s)
    ensures n < 100 ==> |s| == 2
  {
    if n < 10 then "0" + NatToString(n) else NatToString(n)
  }

  /** The number a string of decimal digits denotes. */
  function DigitsValue(s: string): nat
    requires AllDigits(s)
  {
    if s == [] then 0 else DigitsValue(s[..|s| - 1]) * 10 + DigitValue(s[|s| - 1])
  }

  lemma {:induction false} NatToStringValue(n: nat)
    ensures DigitsValue(NatToString(n)) == n
  {
    if n >= 10 {
      var s := NatToString(n);
      assert s[..|s| - 1] == NatToString(n / 10);
      NatToStringValue(n / 10);
    }
  }

  lemma ZeroPad2Value(n: nat)
    ensures DigitsValue(ZeroPad2(n)) == n
  {
    if n < 10 {
      var s := ZeroPad2(n);
      assert s == ['0', DigitChar(n)];
      assert s[..1] == "0" && "0"[..0] == [];
    } else {
      NatToStringValue(n);
    }
  }

  /** The length of the run of digits at the head of `s`. */
  function DigitRun(s: string): (k: nat)
    ensures k <= |s| && AllDigits(s[..k])
    ensures k < |s| ==> !IsDigit(s[k])
  {
    if s == [] || !IsDigit(s[0]) then 0
    else
      var k := 1 + DigitRun(s[1..]);
      assert s[..k] == [s[0]] + s[1..][..k - 1];
      k
  }

  lemma {:induction false} DigitRunOver(digits: string, rest: string)
    requires AllDigits(digits)
    requires rest == [] || !IsDigit(rest[0])
    ensures DigitRun(digits + rest) == |digits|
  {
    if digits != [] {
      assert (digits + rest)[1..] == digits[1..] + rest;
      DigitRunOver(digits[1..], rest);
    }
  }

  /**
   * Reads the decimal number at the head of `s`; gives it back with the text that follows,
   * or None when `s` does not start with a digit.
   */
  function ReadNat(s: string): (r: Option<(nat, string)>)
    ensures r.None? <==> (s == [] || !IsDigit(s[0]))
    ensures r.Some? ==> |r.value.1| < |s|
  {
    var k := DigitRun(s);
    if k == 0 then None else Some((DigitsValue(s[..k]), s[k..]))
  }

  /** Reading back a rendered number: the digits of `digits` and nothing of `rest`. */
  lemma ReadDigits(digits: string, rest: string)
    requires 1 <= |digits| && AllDigits(digits)
    requires rest == [] || !IsDigit(rest[0])
    ensures ReadNat(digits + rest) == Some((DigitsValue(digits), rest))
  {
    DigitRunOver(digits, rest);
    assert (digits + rest)[..|digits|] == digits;
    assert (digits + rest)[|digits|..] == rest;
  }

  lemma ReadNatToString(n: nat, rest: string)
    requires rest == [] || !IsDigit(rest[0])
    ensures ReadNat(NatToString(n) + rest) == Some((n, rest))
  {
    ReadDigits(NatToString(n), rest);
    NatToStringValue(n);
  }

  lemma ReadZeroPad2(n: nat, rest: string)
    requires rest == [] || !IsDigit(rest[0])
    ensures ReadNat(ZeroPad2(n) + rest) == Some((n, rest))
  {
    ReadDigits(ZeroPad2(n), rest);
    ZeroPad2Value(n);
  }

  /** Reads a possibly negative number at the head of `s`, as `IntToString` writes it. */
  function ReadInt(s: string): Option<(int, string)> {
    var negative := s != [] && s[0] == '-';
    var read := ReadNat(if negative then s[1..] else s);
    if read.None? then None
    else
      var magnitude: int := read.value.0;
      Some((if negative then -magnitude else magnitude, read.value.1))
  }

  /** What follows a number is shorter than the text it was read from. */
  lemma ReadIntShrinks(s: string)
    ensures ReadInt(s).Some? ==> |ReadInt(s).value.1| < |s|
  {
  }

  lemma ReadIntOfNat(n: nat, rest: string)
    requires rest == [] || !IsDigit(rest[0])
    ensures ReadInt(NatToString(n) + rest) == Some((n, rest))
  {
    var s := NatToString(n) + rest;
    assert s[0] == NatToString(n)[0];
    ReadNatToString(n, rest);
  }

  lemma ReadIntOfNegated(n: int, rest: string)
    requires n >= 0
    requires rest == [] || !IsDigit(rest[0])
    ensures ReadInt("-" + (NatToString(n) + rest)) == Some((-n, rest))
  {
    var s := "-" + (NatToString(n) + rest);
    assert s[1..] == NatToString(n) + rest;
    ReadNatToString(n, rest);
  }

  lemma ReadIntToString(i: int, rest: string)
    requires rest == [] || !IsDigit(rest[0])
    ensures ReadInt(IntToString(i) + rest) == Some((i, rest))
  {
    if i < 0 {
      var d := NatToString(-i);
      assert IntToString(i) == "-" + d;
      assert ("-" + d) + rest == "-" + (d + rest);
      ReadIntOfNegated(-i, rest);
    } else {
      assert IntToString(i) == NatToString(i);
      ReadIntOfNat(i, rest);
    }
  }

  /** `Int(x)` for a `Double` x: truncation toward zero. */
  function TruncateToInt(x: real): (i: int)
    ensures x >= 0.0 ==> 0 <= i && i as real <= x < i as real + 1.0
    ensures x < 0.0 ==> i <= 0 && i as real - 1.0 < x <= i as real
  {
    if x >= 0.0 then x.Floor else -((-x).Floor)
  }

  /** The range of Swift's 64-bit `Int`. */
  const IntMin: int := -0x8000_0000_0000_0000
  const IntMax: int := 0x7FFF_FFFF_FFFF_FFFF

  /**
   * The failable `Int(String)` initializer: an optional `+` or `-`, then one or more ASCII
   * digits and nothing else, denoting a value inside the 64-bit range.
   */
  function ParseInt(s: string): (r: Option<int>)
    ensures r.Some? ==> IntMin <= r.value <= IntMax
    ensures |s| > 0 && !IsDigit(s[|s| - 1]) ==> r.None?
  {
    var signed := |s| > 0 && (s[0] == '+' || s[0] == '-');
    var digits := if signed then s[1..] else s;
    if |digits| == 0 || !AllDigits(digits) then None
    else
      var magnitude: int := DigitsValue(digits);
      var v := if signed && s[0] == '-' then -magnitude else magnitude;
      if IntMin <= v <= IntMax then Some(v) else None
  }

  /** `Int(String(i)) == i`: every 64-bit value survives rendering and parsing. */
  lemma ParseIntToString(i: int)
    requires IntMin <= i <= IntMax
    ensures ParseInt(IntToString(i)) == Some(i)
  {
    NatToStringValue(if i < 0 then -i else i);
    if i < 0 {
      assert IntToString(i)[1..] == NatToString(-i);
    }
  }
}
