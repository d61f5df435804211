/**
 * Decimal text of integers, as JavaScript writes a whole number inside a
 * template literal (`${n}`): an optional minus sign, then digits without a
 * leading zero. Also the powers of ten that stand in for `Math.pow(10, d)`.
 */
module Decimal {

  /** 10^n as an exact natural number (`Math.pow(10, n)` on whole exponents). */
  function Pow10(n: nat): (r: nat)
    ensures r >= 1
  {
    if n == 0 then 1 else 10 * Pow10(n - 1)
  }

  predicate IsDigit(c: char) {
    '0' <= c <= '9'
  }

  /** Characters that can occur in the decimal text of an integer. */
  predicate IsNumberChar(c: char) {
    IsDigit(c) || c == '-'
  }

  predicate AllNumberChars(s: string) {
    forall i :: 0 <= i < |s| ==> IsNumberChar(s[i])
  }

  function DigitChar(d: nat): (c: char)
    requires d < 10
    ensures IsDigit(c)
    ensures c as int - '0' as int == d
  {
    ('0' as int + d) as char
  }

  /** The decimal text of a natural number: no sign, no leading zero. */
  function NatToString(n: nat): (s: string)
    ensures |s| >= 1
    ensures forall i :: 0 <= i < |s| ==> IsDigit(s[i])
    ensures s[0] == '0' ==> n == 0
    ensures n >= 10 ==> |s| >= 2
  {
    if n < 10 then [DigitChar(n)] else NatToString(n / 10) + [DigitChar(n % 10)]
  }

  /** The decimal text of an integer: a minus sign before a negative number. */
  function IntToString(i: int): (s: string)
    ensures |s| >= 1 && AllNumberChars(s)
    ensures s[0] == '-' <==> i < 0
  {
    if i < 0 then "-" + NatToString(-i) else NatToString(i)
  }

  /** Reads a string of decimal digits back as the number it denotes, most significant digit first. */
  function DecimalValue(s: string): (v: nat)
    requires forall i :: 0 <= i < |s| ==> IsDigit(s[i])
  {
    if s == [] then 0
    else
      assert IsDigit(s[|s| - 1]);
      10 * DecimalValue(s[..|s| - 1]) + (s[|s| - 1] as int - '0' as int)
  }

  /** Reads the decimal text of an integer: a leading minus sign negates the digits after it. */
  function SignedDecimalValue(s: string): (v: int)
    requires |s| >= 1 && forall i :: (if s[0] == '-' then 1 else 0) <= i < |s| ==> IsDigit(s[i])
  {
    if s[0] == '-' then -(DecimalValue(s[1..]) as int) else DecimalValue(s)
  }

  /** The text of `n` denotes `n`: reading it back gives the number. */
  lemma {:induction false} NatToStringRoundTrip(n: nat)
    ensures DecimalValue(NatToString(n)) == n
  {
    if n >= 10 {
      var s := NatToString(n);
      assert s[..|s| - 1] == NatToString(n / 10);
      NatToStringRoundTrip(n / 10);
    }
  }

  /** The text of an integer denotes it: the sign, then the digits of its magnitude. */
  lemma IntToStringRoundTrip(i: int)
    ensures SignedDecimalValue(IntToString(i)) == i
  {
    var s := IntToString(i);
    if i < 0 {
      assert s[1..] == NatToString(-i);
      NatToStringRoundTrip(-i);
    } else {
      NatToStringRoundTrip(i);
    }
  }

  lemma {:induction false} NatToStringInjective(a: nat, b: nat)
    ensures NatToString(a) == NatToString(b) ==> a == b
  {
    var sa, sb := NatToString(a), NatToString(b);
    if sa == sb {
      if a < 10 && b < 10 {
        assert DigitChar(a) == sa[0] == sb[0] == DigitChar(b);
      } else if a >= 10 && b >= 10 {
        assert NatToString(a / 10) == sa[..|sa| - 1];
        assert NatToString(b / 10) == sb[..|sb| - 1];
        NatToStringInjective(a / 10, b / 10);
        assert DigitChar(a % 10) == sa[|sa| - 1] == sb[|sb| - 1] == DigitChar(b % 10);
      }
    }
  }

  /** Distinct integers have distinct decimal texts, so the text determines the number. */
  lemma IntToStringInjective(a: int, b: int)
    ensures IntToString(a) == IntToString(b) ==> a == b
  {
    var sa, sb := IntToString(a), IntToString(b);
    if sa == sb {
      if a < 0 && b < 0 {
        assert NatToString(-a) == sa[1..] == sb[1..] == NatToString(-b);
        NatToStringInjective(-a, -b);
      } else if a >= 0 && b >= 0 {
        NatToStringInjective(a, b);
      }
    }
  }

  /** A positive number has d digits exactly when it lies in [10^(d-1), 10^d - 1]. */
  lemma {:induction false} NatToStringLength(n: nat, d: nat)
    requires n >= 1 && d >= 1
    ensures |NatToString(n)| == d <==> Pow10(d - 1) <= n <= Pow10(d) - 1
  {
    if n < 10 {
      if d >= 2 {
        Pow10AtLeastTen(d - 1);
      }
    } else if d == 1 {
    } else {
      NatToStringLength(n / 10, d - 1);
      assert Pow10(d) == 10 * Pow10(d - 1);
      assert Pow10(d - 1) == 10 * Pow10(d - 2);
    }
  }

  lemma {:induction false} Pow10AtLeastTen(n: nat)
    requires n >= 1
    ensures Pow10(n) >= 10
  {
    if n > 1 {
      Pow10AtLeastTen(n - 1);
    }
  }

  /** The length of the longest prefix of `s` made of characters of class `inRun`. */
  function RunLength(inRun: char -> bool, s: string): (n: nat)
    ensures n <= |s|
  {
    if s == [] || !inRun(s[0]) then 0 else 1 + RunLength(inRun, s[1..])
  }

  lemma {:induction false} RunLengthOfConcat(inRun: char -> bool, x: string, y: string)
    requires forall i :: 0 <= i < |x| ==> inRun(x[i])
    requires |y| >= 1 && !inRun(y[0])
    ensures RunLength(inRun, x + y) == |x|
  {
    if x != [] {
      assert (x + y)[1..] == x[1..] + y;
      RunLengthOfConcat(inRun, x[1..], y);
    }
  }

  /**
   * If two strings each start with a run of characters of class `inRun`
   * and continue with a character outside it, equal concatenations split
   * at the same place.
   */
  lemma SplitAtRunEnd(inRun: char -> bool, x1: string, y1: string, x2: string, y2: string)
    requires forall i :: 0 <= i < |x1| ==> inRun(x1[i])
    requires forall i :: 0 <= i < |x2| ==> inRun(x2[i])
    requires |y1| >= 1 && !inRun(y1[0])
    requires |y2| >= 1 && !inRun(y2[0])
    requires x1 + y1 == x2 + y2
    ensures x1 == x2 && y1 == y2
  {
    RunLengthOfConcat(inRun, x1, y1);
    RunLengthOfConcat(inRun, x2, y2);
    assert x1 == (x1 + y1)[..|x1|];
    assert x2 == (x2 + y2)[..|x2|];
    assert y1 == (x1 + y1)[|x1|..];
    assert y2 == (x2 + y2)[|x2|..];
  }
}
