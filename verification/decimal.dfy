/** Decimal text of an integer, as `std::to_string(int)` produces it: an
    optional '-' followed by the digits of the magnitude, without leading
    zeros. `ParseInt` reads such text back and is the partner the round trips
    are stated against. */
module Decimal {

  import opened Wrappers

  predicate IsDigit(c: char)
  {
    '0' <= c <= '9'
  }

  predicate AllDigits(s: string)
  {
    forall i :: 0 <= i < |s| ==> IsDigit(s[i])
  }

  /** A non-empty digit string without a leading zero (except "0" itself). */
  predicate IsCanonicalDigits(s: string)
  {
    |s| > 0 && AllDigits(s) && (|s| > 1 ==> s[0] != '0')
  }

  function DigitValue(c: char): (d: nat)
    requires IsDigit(c)
    ensures d < 10
  {
    c as int - '0' as int
  }

  function DigitChar(d: nat): (c: char)
    requires d < 10
    ensures IsDigit(c) && DigitValue(c) == d
  {
    ('0' as int + d) as char
  }

  /** The number a digit string denotes, most significant digit first. */
  function ParseDigits(s: string): nat
    requires AllDigits(s)
  {
    if |s| == 0 then 0 else ParseDigits(s[..|s| - 1]) * 10 + DigitValue(s[|s| - 1])
  }

  /** Reads an optional '-' and a non-empty digit string; anything else is `None`. */
  function ParseInt(s: string): Option<int>
  {
    if |s| > 0 && s[0] == '-' then
      (if |s| > 1 && AllDigits(s[1..]) then Some(-(ParseDigits(s[1..]) as int)) else None)
    else if |s| > 0 && AllDigits(s) then Some(ParseDigits(s))
    else None
  }

  /** The decimal digits of `n`. */
  function NatToString(n: nat): (s: string)
    ensures IsCanonicalDigits(s)
    ensures ParseDigits(s) == n
  {
    if n < 10 then [DigitChar(n)]
    else
      var front := NatToString(n / 10);
      var s := front + [DigitChar(n % 10)];
      assert s[..|s| - 1] == front;
      s
  }

  /** `std::to_string(int)`. */
  function IntToString(n: int): (s: string)
    ensures ParseInt(s) == Some(n)
    ensures n < 0 <==> (|s| > 0 && s[0] == '-')
    ensures IsCanonicalDigits(if n < 0 then s[1..] else s)
  {
    if n < 0 then
      var digits := NatToString(-n);
      assert ("-" + digits)[1..] == digits;
      "-" + digits
    else NatToString(n)
  }

  /** A canonical digit string with more than one digit denotes at least 10. */
  lemma {:induction false} CanonicalAtLeastTen(s: string)
    requires IsCanonicalDigits(s) && |s| > 1
    ensures ParseDigits(s) >= 10
  {
    var front := s[..|s| - 1];
    assert front[0] == s[0];
    if |front| > 1 {
      CanonicalAtLeastTen(front);
    } else {
      assert ParseDigits(front) == DigitValue(front[0]);
    }
  }

  /** Printing a parsed canonical digit string gives the same string back. */
  lemma {:induction false} NatToStringOfParse(s: string)
    requires IsCanonicalDigits(s)
    ensures NatToString(ParseDigits(s)) == s
  {
    if |s| > 1 {
      var front := s[..|s| - 1];
      assert front[0] == s[0];
      var n := ParseDigits(s);
      CanonicalAtLeastTen(s);
      assert n / 10 == ParseDigits(front) && n % 10 == DigitValue(s[|s| - 1]);
      NatToStringOfParse(front);
      assert s == front + [s[|s| - 1]];
    } else {
      assert ParseDigits(s) == DigitValue(s[0]);
    }
  }

  /** Decimal text that `IntToString` could have produced: canonical digits,
      with a '-' in front only for a non-zero magnitude. */
  predicate IsCanonicalInt(s: string)
  {
    if |s| > 0 && s[0] == '-' then IsCanonicalDigits(s[1..]) && s[1..] != "0"
    else IsCanonicalDigits(s)
  }

  /** The other half of the round trip: canonical decimal text is exactly the
      printing of the number it denotes. */
  lemma IntToStringOfParse(s: string)
    requires IsCanonicalInt(s)
    ensures ParseInt(s).Some? && IntToString(ParseInt(s).value) == s
  {
    if |s| > 0 && s[0] == '-' {
      NatToStringOfParse(s[1..]);
      assert ParseDigits(s[1..]) != 0;
      assert s == "-" + s[1..];
    } else {
      NatToStringOfParse(s);
    }
  }
}
