/**
 * Decimal rendering and reading of integers as JavaScript does them for the values the
 * site stores: `Number.prototype.toString()` on an integer, `String.prototype.padStart`
 * with `'0'`, and `parseInt` in base ten.
 */
module Decimal {
  import opened Common
  import opened JsString

  predicate IsDigit(c: char) {
    '0' <= c <= '9'
  }

  predicate AllDigits(s: string) {
    forall k :: 0 <= k < |s| ==> IsDigit(s[k])
  }

  function DigitChar(d: int): (c: char)
    requires 0 <= d < 10
    ensures IsDigit(c) && c as int - '0' as int == d
  {
    ('0' as int + d) as char
  }

  /** `n.toString()` for a non-negative integer: digits, no leading zero. */
  function NatToString(n: nat): (s: string)
    ensures |s| >= 1 && AllDigits(s)
    ensures |s| > 1 ==> s[0] != '0'
    ensures n < 10 <==> |s| == 1
    decreases n
  {
    if n < 10 then [DigitChar(n)] else NatToString(n / 10) + [DigitChar(n % 10)]
  }

  /** `i.toString()` for an integer. */
  function IntToString(i: int): (s: string)
    ensures |s| >= 1
  {
    if i < 0 then "-" + NatToString(-i) else NatToString(i)
  }

  /** The value of a string of decimal digits. */
  function DigitsValue(s: string): nat
    requires AllDigits(s)
    decreases |s|
  {
    if s == [] then 0 else DigitsValue(s[..|s| - 1]) * 10 + (s[|s| - 1] as int - '0' as int)
  }

  /** The longest prefix of `s` made of decimal digits (a greedy `\d+` or `\d*`). */
  function DigitRun(s: string): (r: string)
    ensures |r| <= |s| && r == s[..|r|]
    ensures AllDigits(r)
    ensures |r| < |s| ==> !IsDigit(s[|r|])
  {
    if s == [] || !IsDigit(s[0]) then ""
    else [s[0]] + DigitRun(s[1..])
  }

  /** `parseInt(s)` in base ten: leading white space is skipped, one sign is read, then
    * the longest run of digits; without a digit the result is `NaN` (`None`). */
  function ParseInt(s: string): (r: Option<int>)
    ensures r.None? <==> DigitRun(SignFree(TrimStart(s))) == ""
  {
    var t := TrimStart(s);
    var negative := |t| > 0 && t[0] == '-';
    var digits := DigitRun(SignFree(t));
    var value: int := if digits == "" then 0 else DigitsValue(digits);
    if digits == "" then None
    else if negative then Some(-value)
    else Some(value)
  }

  /** The text after one leading sign, if there is one. */
  function SignFree(t: string): string {
    if |t| > 0 && (t[0] == '-' || t[0] == '+') then t[1..] else t
  }

  /** `str.padStart(width, '0')`. */
  function PadStart(str: string, width: nat): (r: string)
    ensures |r| == Max(|str|, width)
    ensures EndsWith(r, str)
    ensures forall k :: 0 <= k < |r| - |str| ==> r[k] == '0'
  {
    if |str| >= width then str else seq(width - |str|, _ => '0') + str
  }

  // ---------------------------------------------------------------------
  // properties

  /** Reading back a rendered natural number gives the number. */
  lemma {:induction false} DigitsValueOfNatToString(n: nat)
    ensures DigitsValue(NatToString(n)) == n
    decreases n
  {
    var s := NatToString(n);
    if n >= 10 {
      DigitsValueOfNatToString(n / 10);
      assert s[..|s| - 1] == NatToString(n / 10);
    }
  }

  /** A string of digits is its own digit run. */
  lemma {:induction false} DigitRunOfDigits(s: string)
    requires AllDigits(s)
    ensures DigitRun(s) == s
    decreases |s|
  {
    if s != [] {
      DigitRunOfDigits(s[1..]);
    }
  }

  /** `parseInt(i.toString())` is `i`: the round trip of a stored timestamp. */
  lemma ParseIntOfIntToString(i: int)
    ensures ParseInt(IntToString(i)) == Some(i)
  {
    var s := IntToString(i);
    var digits := NatToString(if i < 0 then -i else i);
    TrimStartUnpadded(s);
    if i < 0 {
      assert s == "-" + digits;
      assert SignFree(s) == digits;
    } else {
      assert SignFree(s) == digits;
    }
    DigitRunOfDigits(digits);
    DigitsValueOfNatToString(if i < 0 then -i else i);
  }

  /** A string with no digit after the white space and sign reads as `NaN`. */
  lemma NoDigitIsNaN(s: string)
    requires |s| > 0 && !IsDigit(s[0]) && !IsJsWhitespace(s[0]) && s[0] != '-' && s[0] != '+'
    ensures ParseInt(s).None?
  {
    TrimStartUnpadded(s);
  }

  /** Two-digit padding of a number below 100 has exactly two digits. */
  lemma PadTwo(n: nat)
    requires n < 100
    ensures |PadStart(NatToString(n), 2)| == 2
    ensures DigitsValue(PadStart(NatToString(n), 2)) == n
  {
    var s := NatToString(n);
    DigitsValueOfNatToString(n);
    if n < 10 {
      assert PadStart(s, 2) == "0" + s;
      assert ("0" + s)[..1] == "0";
      assert ("0" + s)[..2 - 1] == "0";
    } else {
      assert |NatToString(n / 10)| == 1;
    }
  }
}
