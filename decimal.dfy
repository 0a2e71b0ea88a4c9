/** How a JavaScript template literal prints an integer (`${n}`): decimal
    digits, no leading zero, a minus sign for negatives. A parser for the same
    notation is the partner the printer is proved against. */
module Decimal {
  import opened Records

  predicate IsDigits(s: string)
  {
    forall i :: 0 <= i < |s| ==> '0' <= s[i] <= '9'
  }

  function DigitChar(d: nat): (c: char)
    requires d < 10
    ensures '0' <= c <= '9'
    ensures c as int - '0' as int == d
  {
    ('0' as int + d) as char
  }

  /** The value of a string of decimal digits, most significant first. */
  function DigitsValue(s: string): nat
    requires IsDigits(s)
    decreases |s|
  {
    if s == [] then 0 else DigitsValue(s[..|s| - 1]) * 10 + (s[|s| - 1] as int - '0' as int)
  }

  /** `${n}` for a non-negative integer. */
  function NatToString(n: nat): (s: string)
    ensures |s| >= 1 && IsDigits(s)
    ensures |s| > 1 ==> s[0] != '0'
    decreases n
  {
    if n < 10 then [DigitChar(n)] else NatToString(n / 10) + [DigitChar(n % 10)]
  }

  /** `${i}` for any integer. */
  function IntToString(i: int): (s: string)
    ensures |s| >= 1
    ensures s[0] == '-' <==> i < 0
  {
    if i < 0 then "-" + NatToString(-i) else NatToString(i)
  }

  /** Reads back what IntToString prints; None for anything else. */
  function ParseInt(s: string): Option<int>
  {
    if |s| == 0 then None
    else if s[0] == '-' then
      if |s| >= 2 && IsDigits(s[1..]) then
        var magnitude: int := DigitsValue(s[1..]);
        Some(-magnitude)
      else None
    else if IsDigits(s) then Some(DigitsValue(s))
    else None
  }

  lemma {:induction false} NatToStringRoundTrip(n: nat)
    ensures DigitsValue(NatToString(n)) == n
  {
    if n >= 10 {
      NatToStringRoundTrip(n / 10);
      var s := NatToString(n);
      assert s[..|s| - 1] == NatToString(n / 10);
    }
  }

  lemma ParseNatString(n: nat)
    ensures ParseInt(NatToString(n)) == Some(n)
  {
    NatToStringRoundTrip(n);
    var digits := NatToString(n);
    assert '0' <= digits[0] <= '9';
  }

  lemma ParseNegativeString(n: nat)
    ensures ParseInt("-" + NatToString(n)) == Some(-(n as int))
  {
    NatToStringRoundTrip(n);
    var digits := NatToString(n);
    assert ("-" + digits)[1..] == digits;
  }

  lemma IntToStringRoundTrip(i: int)
    ensures ParseInt(IntToString(i)) == Some(i)
  {
    if i < 0 {
      ParseNegativeString(-i);
    } else {
      ParseNatString(i);
    }
  }
}
