/**
 * Numbers as JavaScript writes and reads them: the decimal text a template literal
 * produces for a non-negative integer, and the global `parseInt` with no radix.
 */
module Decimal {
  import opened Wrappers
  import opened Text

  predicate IsDigit(c: char) {
    '0' <= c <= '9'
  }

  function DigitChar(d: nat): (c: char)
    requires d < 10
    ensures IsDigit(c) && DigitValue(c) == d
  {
    ('0' as int + d) as char
  }

  /** The value of `c` as a digit in any radix up to 36 (`0`-`9`, then `a`/`A` = 10 … `z`/`Z` = 35). */
  function DigitValue(c: char): nat {
    if '0' <= c <= '9' then c as int - '0' as int
    else if 'a' <= c <= 'z' then c as int - 'a' as int + 10
    else if 'A' <= c <= 'Z' then c as int - 'A' as int + 10
    else 36
  }

  /** `${n}` for a non-negative integer: its decimal digits, without leading zeros. */
  function NatToString(n: nat): (s: string)
    ensures |s| >= 1
    ensures forall i :: 0 <= i < |s| ==> IsDigit(s[i])
    ensures |s| > 1 ==> s[0] != '0'
  {
    if n < 10 then [DigitChar(n)] else NatToString(n / 10) + [DigitChar(n % 10)]
  }

  /** The value of a string of digits in `radix`, most significant first. */
  function DigitsValue(s: string, radix: nat): nat
    requires forall i :: 0 <= i < |s| ==> DigitValue(s[i]) < radix
  {
    if s == [] then 0
    else
      var init := s[..|s| - 1];
      assert forall i :: 0 <= i < |init| ==> init[i] == s[i];
      DigitsValue(init, radix) * radix + DigitValue(s[|s| - 1])
  }

  /** Length of the longest prefix of `s` made of digits valid in `radix`. */
  function DigitPrefix(s: string, radix: nat): (n: nat)
    ensures n <= |s|
    ensures forall i :: 0 <= i < n ==> DigitValue(s[i]) < radix
    ensures n < |s| ==> DigitValue(s[n]) >= radix
  {
    if s != [] && DigitValue(s[0]) < radix then 1 + DigitPrefix(s[1..], radix) else 0
  }

  /**
   * The global `parseInt(text)`: skip leading white space, take an optional sign, read a `0x`/`0X`
   * prefix as radix 16 (otherwise radix 10), then as many digits of that radix as follow. No digit
   * at all is `NaN`, here `None`.
   */
  function ParseInt(text: string): (r: Option<int>)
  {
    var t := text[LeadingWhitespace(text)..];
    var negative := t != [] && t[0] == '-';
    var unsigned := if t != [] && (t[0] == '+' || t[0] == '-') then t[1..] else t;
    var hex := |unsigned| >= 2 && unsigned[0] == '0' && (unsigned[1] == 'x' || unsigned[1] == 'X');
    var radix := if hex then 16 else 10;
    var body := if hex then unsigned[2..] else unsigned;
    var n := DigitPrefix(body, radix);
    if n == 0 then None
    else
      var magnitude: int := DigitsValue(body[..n], radix);
      Some(if negative then -magnitude else magnitude)
  }

  lemma {:induction false} NatToStringValue(n: nat)
    ensures DigitsValue(NatToString(n), 10) == n
  {
    var s := NatToString(n);
    if n >= 10 {
      NatToStringValue(n / 10);
      assert s[..|s| - 1] == NatToString(n / 10);
    }
  }

  /** `parseInt` reads back exactly what a template literal writes for a non-negative integer. */
  lemma ParseIntOfNatToString(n: nat)
    ensures ParseInt(NatToString(n)) == Some(n)
  {
    var s := NatToString(n);
    assert LeadingWhitespace(s) == 0 by {
      assert !IsWhitespace(s[0]);
    }
    assert s[LeadingWhitespace(s)..] == s;
    assert DigitPrefix(s, 10) == |s|;
    assert s[..|s|] == s;
    NatToStringValue(n);
  }

  /** Text that cannot start a number: empty, or opening with something other than space, sign or digit. */
  predicate NonNumeric(s: string) {
    s == [] || (!IsWhitespace(s[0]) && s[0] != '+' && s[0] != '-' && DigitValue(s[0]) >= 10)
  }

  /** Such text parses as `NaN`. */
  lemma ParseIntNonNumeric(text: string)
    requires NonNumeric(text)
    ensures ParseInt(text) == None
  {
    if text != [] {
      assert LeadingWhitespace(text) == 0;
      assert text[0..] == text;
      assert DigitPrefix(text, 10) == 0;
    }
  }
}
