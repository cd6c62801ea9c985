/**
 * Digit strings in base 16 and base 10: reading a hexadecimal number the way
 * JavaScript's `parseInt(s, 16)` does, and writing fixed-width and canonical
 * decimal numerals.
 */
module Numerals {
  import opened Wrappers

  // ---------------------------------------------------------------- base 16

  /** The value of a hexadecimal digit, in either case. */
  function HexDigitValue(c: char): (r: Option<nat>)
    ensures r.Some? <==> ('0' <= c <= '9' || 'a' <= c <= 'f' || 'A' <= c <= 'F')
    ensures r.Some? ==> r.value < 16
  {
    if '0' <= c <= '9' then Some(c as int - '0' as int)
    else if 'a' <= c <= 'f' then Some(c as int - 'a' as int + 10)
    else if 'A' <= c <= 'F' then Some(c as int - 'A' as int + 10)
    else None
  }

  predicate IsHexDigit(c: char) {
    HexDigitValue(c).Some?
  }

  predicate AllHexDigits(s: string) {
    forall i :: 0 <= i < |s| ==> IsHexDigit(s[i])
  }

  function Pow16(k: nat): (r: nat)
    ensures r >= 1
  {
    if k == 0 then 1 else 16 * Pow16(k - 1)
  }

  /** The number a string of hexadecimal digits denotes, most significant first. */
  function HexValue(s: string): (r: nat)
    requires AllHexDigits(s)
    ensures r < Pow16(|s|)
  {
    if s == [] then 0
    else HexValue(s[..|s| - 1]) * 16 + HexDigitValue(s[|s| - 1]).value
  }

  /** Length of the longest prefix of `s` made of hexadecimal digits. */
  function HexRun(s: string): (n: nat)
    ensures n <= |s|
    ensures AllHexDigits(s[..n])
    ensures n < |s| ==> !IsHexDigit(s[n])
  {
    if s == [] || !IsHexDigit(s[0]) then 0
    else
      var n := 1 + HexRun(s[1..]);
      assert s[..n] == [s[0]] + s[1..][..n - 1];
      n
  }

  /** `s` without a leading `0x` or `0X`. */
  function StripHexPrefix(s: string): (r: string)
    ensures |r| <= |s| && r == s[|s| - |r|..]
  {
    if |s| >= 2 && s[0] == '0' && (s[1] == 'x' || s[1] == 'X') then s[2..] else s
  }

  /**
   * `parseInt(s, 16)` for a string with no leading blanks and no sign: an
   * optional `0x`/`0X` prefix, then the longest run of hexadecimal digits;
   * characters after the run are ignored, and no digit at all gives NaN,
   * which is `None` here.
   */
  function ParseInt16(s: string): (r: Option<nat>)
    ensures r.None? <==> var body := StripHexPrefix(s); body == [] || !IsHexDigit(body[0])
  {
    var body := StripHexPrefix(s);
    var n := HexRun(body);
    if n == 0 then None else Some(HexValue(body[..n]))
  }

  /** The lower-case hexadecimal digit for `d`. */
  function HexDigitChar(d: nat): (c: char)
    requires d < 16
    ensures HexDigitValue(c) == Some(d)
  {
    if d < 10 then ('0' as int + d) as char else ('a' as int + d - 10) as char
  }

  /** `n` written with exactly `width` lower-case hexadecimal digits
      (the low `width` digits of `n`). */
  function HexDigits(n: nat, width: nat): (s: string)
    ensures |s| == width && AllHexDigits(s)
  {
    if width == 0 then []
    else HexDigits(n / 16, width - 1) + [HexDigitChar(n % 16)]
  }

  /** Reading back what `HexDigits` wrote gives the number, when it fits. */
  lemma {:induction false} HexValueOfDigits(n: nat, width: nat)
    requires n < Pow16(width)
    ensures HexValue(HexDigits(n, width)) == n
  {
    if width > 0 {
      var s := HexDigits(n, width);
      assert s[..width - 1] == HexDigits(n / 16, width - 1);
      HexValueOfDigits(n / 16, width - 1);
    }
  }

  // ---------------------------------------------------------------- base 10

  function DecimalDigitValue(c: char): (r: Option<nat>)
    ensures r.Some? <==> '0' <= c <= '9'
    ensures r.Some? ==> r.value < 10
  {
    if '0' <= c <= '9' then Some(c as int - '0' as int) else None
  }

  predicate IsDecimalDigit(c: char) {
    '0' <= c <= '9'
  }

  predicate AllDecimalDigits(s: string) {
    forall i :: 0 <= i < |s| ==> IsDecimalDigit(s[i])
  }

  function Pow10(k: nat): (r: nat)
    ensures r >= 1
  {
    if k == 0 then 1 else 10 * Pow10(k - 1)
  }

  /** The number a string of decimal digits denotes, most significant first. */
  function DecimalValue(s: string): (r: nat)
    requires AllDecimalDigits(s)
    ensures r < Pow10(|s|)
  {
    if s == [] then 0
    else DecimalValue(s[..|s| - 1]) * 10 + DecimalDigitValue(s[|s| - 1]).value
  }

  function DecimalDigitChar(d: nat): (c: char)
    requires d < 10
    ensures DecimalDigitValue(c) == Some(d)
  {
    ('0' as int + d) as char
  }

  /** `n` written with exactly `width` decimal digits, zero-padded on the left
      (the low `width` digits of `n`). */
  function DecimalDigits(n: nat, width: nat): (s: string)
    ensures |s| == width && AllDecimalDigits(s)
  {
    if width == 0 then []
    else DecimalDigits(n / 10, width - 1) + [DecimalDigitChar(n % 10)]
  }

  /** Reading back what `DecimalDigits` wrote gives the number, when it fits. */
  lemma {:induction false} DecimalValueOfDigits(n: nat, width: nat)
    requires n < Pow10(width)
    ensures DecimalValue(DecimalDigits(n, width)) == n
  {
    if width > 0 {
      var s := DecimalDigits(n, width);
      assert s[..width - 1] == DecimalDigits(n / 10, width - 1);
      DecimalValueOfDigits(n / 10, width - 1);
    }
  }

  /** The canonical decimal numeral of `n`, as `BigInt.prototype.toString()`
      writes it: no leading zero except for zero itself. */
  function DecimalString(n: nat): (s: string)
    ensures 1 <= |s| && AllDecimalDigits(s)
    ensures |s| == 1 || s[0] != '0'
  {
    if n < 10 then [DecimalDigitChar(n)]
    else DecimalString(n / 10) + [DecimalDigitChar(n % 10)]
  }

  /** `DecimalString` loses nothing: reading it back gives `n`. */
  lemma {:induction false} DecimalStringRoundTrip(n: nat)
    ensures DecimalValue(DecimalString(n)) == n
  {
    if n >= 10 {
      var s := DecimalString(n);
      assert s[..|s| - 1] == DecimalString(n / 10);
      DecimalStringRoundTrip(n / 10);
    }
  }
}
