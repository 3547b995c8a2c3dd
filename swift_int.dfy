/** Swift's conversions between `Int` (64 bits wide) and its decimal text: `Int(_: String)`,
    which the row applies to a URL's last path component, and `String(_: Int)`, which turns
    the parsed number back into the id it requests. */
module SwiftInt {
  import opened Wrappers

  const IntMin: int := -0x8000_0000_0000_0000
  const IntMax: int := 0x7FFF_FFFF_FFFF_FFFF

  predicate IsDigit(c: char) {
    '0' <= c <= '9'
  }

  predicate AllDigits(s: string) {
    forall i :: 0 <= i < |s| ==> IsDigit(s[i])
  }

  function DigitValue(c: char): (d: nat)
    requires IsDigit(c)
    ensures d < 10
  {
    c as int - '0' as int
  }

  function DigitChar(d: nat): (c: char)
    requires d < 10
    ensures IsDigit(c) && DigitValue(c) == d
  {
    ('0' as int + d) as char
  }

  /** The number a string of decimal digits denotes, most significant digit first. */
  function DigitsValue(s: string): nat
    requires AllDigits(s)
    decreases |s|
  {
    if |s| == 0 then 0 else DigitsValue(s[..|s| - 1]) * 10 + DigitValue(s[|s| - 1])
  }

  /** The decimal digits of `n` without leading zeros. */
  function NatDigits(n: nat): (s: string)
    ensures |s| >= 1 && AllDigits(s)
    ensures s[0] == '0' ==> n == 0
    decreases n
  {
    if n < 10 then [DigitChar(n)] else NatDigits(n / 10) + [DigitChar(n % 10)]
  }

  /** `String(n)`: an optional minus sign followed by the digits of the magnitude. */
  function Describe(n: int): (s: string)
    ensures |s| >= 1
    ensures s[0] == '-' <==> n < 0
    ensures n >= 0 ==> s == NatDigits(n)
    ensures n < 0 ==> s[1..] == NatDigits(-n)
  {
    if n < 0 then "-" + NatDigits(-n) else NatDigits(n)
  }

  /** `Int(s)`: an optional `+` or `-`, then one or more ASCII digits and nothing else;
      no value outside the 64-bit range. */
  function ParseInt(s: string): (r: Option<int>)
    ensures r.Some? ==> IntMin <= r.value <= IntMax && |s| > 0
    ensures r.Some? ==> AllDigits(s[1..]) && (IsDigit(s[0]) || (|s| > 1 && (s[0] == '+' || s[0] == '-')))
    ensures r.Some? && r.value < 0 ==> s[0] == '-'
    ensures r.Some? ==>
      && |SignFree(s)| > 0 && AllDigits(SignFree(s))
      && r.value == (if s[0] == '-' then -(DigitsValue(SignFree(s)) as int) else DigitsValue(SignFree(s)))
  {
    if |s| == 0 then None
    else
      var magnitude := SignFree(s);
      if |magnitude| == 0 || !AllDigits(magnitude) then None
      else
        var v: int := if s[0] == '-' then -(DigitsValue(magnitude) as int) else DigitsValue(magnitude);
        if IntMin <= v <= IntMax then Some(v) else None
  }

  /** The text after a leading sign, if any. */
  function SignFree(s: string): (m: string)
    requires |s| > 0
  {
    if s[0] == '-' || s[0] == '+' then s[1..] else s
  }

  lemma {:induction false} DigitsValueOfNatDigits(n: nat)
    ensures DigitsValue(NatDigits(n)) == n
    decreases n
  {
    if n >= 10 {
      var s := NatDigits(n);
      assert s[..|s| - 1] == NatDigits(n / 10);
      DigitsValueOfNatDigits(n / 10);
    }
  }

  /** Printing a 64-bit integer and parsing the text back gives the integer again. */
  lemma ParseDescribe(n: int)
    requires IntMin <= n <= IntMax
    ensures ParseInt(Describe(n)) == Some(n)
  {
    var m := NatDigits(if n < 0 then -n else n);
    DigitsValueOfNatDigits(if n < 0 then -n else n);
    ParseDigits(m);
  }

  /** Every non-empty run of digits within range parses, leading zeros and all, with or
      without a leading `+`, and with a leading `-` down to the smallest `Int`. */
  lemma ParseDigits(m: string)
    requires |m| > 0 && AllDigits(m)
    ensures DigitsValue(m) <= IntMax ==>
      ParseInt(m) == Some(DigitsValue(m) as int) && ParseInt("+" + m) == Some(DigitsValue(m) as int)
    ensures DigitsValue(m) <= -IntMin ==> ParseInt("-" + m) == Some(-(DigitsValue(m) as int))
  {
    assert SignFree(m) == m;
    assert SignFree("+" + m) == m;
    assert SignFree("-" + m) == m;
  }
}
