/** Decimal text and Rust's `str::parse::<i32>` / `i32::to_string`, as
    used on `/proc` directory names and on the parent-id field. */
module Decimal {

  import opened Wrappers

  const I32_MIN: int := -0x8000_0000
  const I32_MAX: int := 0x7fff_ffff

  predicate InI32(n: int)
  {
    I32_MIN <= n <= I32_MAX
  }

  predicate IsDigit(c: char)
  {
    '0' <= c <= '9'
  }

  predicate AllDigits(s: string)
  {
    forall i :: 0 <= i < |s| ==> IsDigit(s[i])
  }

  function DigitValue(c: char): nat
    requires IsDigit(c)
  {
    c as int - '0' as int
  }

  function DigitChar(d: nat): (c: char)
    requires d < 10
    ensures IsDigit(c) && DigitValue(c) == d
  {
    ('0' as int + d) as char
  }

  /** The value of a run of decimal digits, most significant first. */
  function DigitsValue(s: string): nat
    requires AllDigits(s)
  {
    if s == [] then 0 else DigitsValue(s[..|s| - 1]) * 10 + DigitValue(s[|s| - 1])
  }

  /** `i32::from_str`: an optional `+` or `-`, then at least one ASCII
      digit and nothing else, and a value within the range of `i32`. */
  function ParseI32(s: string): (r: Option<int>)
    ensures r.Some? ==> InI32(r.value)
  {
    if s == [] then None
    else if (s[0] == '+' || s[0] == '-') && |s| == 1 then None
    else
      var negative := s[0] == '-';
      var digits := if s[0] == '+' || s[0] == '-' then s[1..] else s;
      if !AllDigits(digits) then None
      else
        var magnitude: int := DigitsValue(digits);
        var v := if negative then -magnitude else magnitude;
        if InI32(v) then Some(v) else None
  }

  /** `to_string` of a non-negative integer: no sign, no leading zero. */
  function NatToString(n: nat): (s: string)
    ensures |s| >= 1 && AllDigits(s)
    ensures DigitsValue(s) == n
    ensures s[0] != '0' || n == 0
  {
    if n < 10 then [DigitChar(n)]
    else
      var prefix := NatToString(n / 10);
      var s := prefix + [DigitChar(n % 10)];
      assert s[..|s| - 1] == prefix;
      s
  }

  /** `i32::to_string`. */
  function IntToString(n: int): (s: string)
    ensures |s| >= 1
  {
    if n < 0 then "-" + NatToString(-n) else NatToString(n)
  }

  /** A digit string with a non-zero leading digit has a positive value. */
  lemma {:induction false} LeadingNonzeroPositive(s: string)
    requires |s| >= 1 && AllDigits(s) && s[0] != '0'
    ensures DigitsValue(s) >= 1
    ensures |s| >= 2 ==> DigitsValue(s) >= 10
  {
    if |s| >= 2 {
      LeadingNonzeroPositive(s[..|s| - 1]);
    }
  }

  /** Printing the value of a digit string without a leading zero gives
      the string back. */
  lemma {:induction false} NatToStringOfDigits(s: string)
    requires |s| >= 1 && AllDigits(s) && s[0] != '0'
    ensures NatToString(DigitsValue(s)) == s
  {
    LeadingNonzeroPositive(s);
    if |s| >= 2 {
      var prefix := s[..|s| - 1];
      NatToStringOfDigits(prefix);
      var v := DigitsValue(s);
      assert v / 10 == DigitsValue(prefix) && v % 10 == DigitValue(s[|s| - 1]);
      assert DigitChar(v % 10) == s[|s| - 1];
    } else {
      assert DigitChar(DigitsValue(s)) == s[0];
    }
  }

  /** A name that starts with `1`..`9` and parses as an `i32` is a positive
      number whose decimal text is the name itself. */
  lemma ParseNonzeroLeading(s: string)
    requires |s| >= 1 && '1' <= s[0] <= '9' && ParseI32(s).Some?
    ensures ParseI32(s).value > 0
    ensures IntToString(ParseI32(s).value) == s
  {
    NatToStringOfDigits(s);
  }

  /** Parsing inverts printing on the whole `i32` range. */
  lemma ParsePrinted(n: int)
    requires InI32(n)
    ensures ParseI32(IntToString(n)) == Some(n)
  {
    if n < 0 {
      var s := IntToString(n);
      assert s[1..] == NatToString(-n);
    }
  }

  /** A character that is not a digit at the end makes the text
      unparseable, whatever comes before it. */
  lemma ParseTrailingNonDigit(s: string, c: char)
    requires !IsDigit(c)
    ensures ParseI32(s + [c]) == None
  {
    var t := s + [c];
    if |t| > 1 && (t[0] == '+' || t[0] == '-') {
      assert t[1..][|t| - 2] == c;
    } else {
      assert t[|t| - 1] == c;
    }
  }
}
