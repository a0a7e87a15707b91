/** Decimal rendering of integers, as Python's `str.format` renders an `int`
    field, together with a reader that parses it back. The reader is the
    independent partner used to state that a formatted message carries its
    count. */
module Decimal {
  import opened Optional

  predicate IsDigit(c: char)
  {
    '0' <= c <= '9'
  }

  predicate AllDigits(s: string)
  {
    forall i :: 0 <= i < |s| ==> IsDigit(s[i])
  }

  /** A digit string with no superfluous leading zero, as Python prints it. */
  predicate Canonical(s: string)
  {
    && |s| >= 1
    && AllDigits(s)
    && (|s| > 1 ==> s[0] != '0')
  }

  function DigitChar(d: nat): (c: char)
    requires d < 10
    ensures IsDigit(c)
  {
    (('0' as int) + d) as char
  }

  function DigitValue(c: char): (d: nat)
    requires IsDigit(c)
    ensures d < 10
    ensures DigitChar(d) == c
  {
    (c as int) - ('0' as int)
  }

  /** The decimal digits of `n`, most significant first. */
  function NatToString(n: nat): (s: string)
    ensures Canonical(s)
    decreases n
  {
    if n < 10 then [DigitChar(n)]
    else NatToString(n / 10) + [DigitChar(n % 10)]
  }

  /** The value of a digit string (any leading zeros are accepted). */
  function DigitsToNat(s: string): nat
    requires AllDigits(s)
  {
    if |s| == 0 then 0
    else 10 * DigitsToNat(s[..|s| - 1]) + DigitValue(s[|s| - 1])
  }

  /** How Python renders an `int`: a minus sign before the magnitude of a
      negative number. */
  function IntToString(i: int): (s: string)
    ensures |s| >= 1
    ensures i < 0 <==> s[0] == '-'
    ensures i >= 0 ==> Canonical(s)
    ensures i < 0 ==> Canonical(s[1..]) && s[1..] != "0"
  {
    if i < 0 then "-" + NatToString(-i) else NatToString(i)
  }

  /** Reads an optionally signed decimal literal; `None` for anything else. */
  function ParseInt(s: string): (r: Option<int>)
    ensures r.Some? ==> |s| >= 1
  {
    if |s| >= 2 && s[0] == '-' && AllDigits(s[1..]) then Some(0 - DigitsToNat(s[1..]))
    else if |s| >= 1 && AllDigits(s) then Some(DigitsToNat(s) as int)
    else None
  }

  lemma {:induction false} DigitsToNatOfNatToString(n: nat)
    ensures DigitsToNat(NatToString(n)) == n
    decreases n
  {
    var s := NatToString(n);
    if n >= 10 {
      DigitsToNatOfNatToString(n / 10);
      assert s[..|s| - 1] == NatToString(n / 10);
    }
  }

  lemma {:induction false} CanonicalIsPositive(s: string)
    requires Canonical(s) && s[0] != '0'
    ensures DigitsToNat(s) >= 1
    decreases |s|
  {
    if |s| > 1 {
      var p := s[..|s| - 1];
      assert p[0] == s[0];
      CanonicalIsPositive(p);
    }
  }

  /** The converse round trip: a canonical digit string is exactly the
      rendering of its own value. */
  lemma {:induction false} NatToStringOfDigits(s: string)
    requires Canonical(s)
    ensures NatToString(DigitsToNat(s)) == s
    decreases |s|
  {
    if |s| > 1 {
      var p := s[..|s| - 1];
      assert p[0] == s[0];
      CanonicalIsPositive(p);
      NatToStringOfDigits(p);
      assert s == p + [s[|s| - 1]];
    }
  }

  /** Parsing a rendered integer gives the integer back. */
  lemma ParseIntOfIntToString(i: int)
    ensures ParseInt(IntToString(i)) == Some(i)
  {
    var s := IntToString(i);
    if i < 0 {
      assert s[1..] == NatToString(-i);
      DigitsToNatOfNatToString(-i);
    } else {
      DigitsToNatOfNatToString(i);
    }
  }

  /** Distinct integers render differently. */
  lemma IntToStringInjective(i: int, j: int)
    ensures IntToString(i) == IntToString(j) ==> i == j
  {
    ParseIntOfIntToString(i);
    ParseIntOfIntToString(j);
  }
}
