/**
  Decimal rendering of integers, as Swift's string interpolation `"\(n)"`
  writes an `Int`, together with the reading of a numeral that inverts it.
  Every rendered text of the integer usage kinds is built from this.
 */
module Decimal {

  predicate IsDigit(c: char) {
    '0' <= c <= '9'
  }

  predicate AllDigits(s: string) {
    forall i :: 0 <= i < |s| ==> IsDigit(s[i])
  }

  function DigitValue(c: char): int
    requires IsDigit(c)
  {
    c as int - '0' as int
  }

  function DigitChar(d: int): (c: char)
    requires 0 <= d < 10
    ensures IsDigit(c) && DigitValue(c) == d
  {
    ('0' as int + d) as char
  }

  /** The digits of `n`, most significant first, with no leading zero. */
  function NatToString(n: nat): (s: string)
    ensures |s| >= 1 && AllDigits(s)
    ensures s[0] == '0' ==> n == 0 && |s| == 1
  {
    if n < 10 then [DigitChar(n)] else NatToString(n / 10) + [DigitChar(n % 10)]
  }

  /** Swift's `"\(n)"` for an `Int`: a minus sign when `n` is negative, then the digits of `|n|`. */
  function IntToString(n: int): string {
    if n < 0 then "-" + NatToString(-n) else NatToString(n)
  }

  /** A numeral: an optional minus sign followed by at least one digit. */
  predicate IsNumeral(s: string) {
    if |s| > 0 && s[0] == '-' then |s| > 1 && AllDigits(s[1..]) else |s| > 0 && AllDigits(s)
  }

  /** The value of a string of digits, read most significant first. */
  function DigitsValue(s: string): nat
    requires AllDigits(s)
  {
    if s == [] then 0 else DigitsValue(s[..|s| - 1]) * 10 + DigitValue(s[|s| - 1])
  }

  function NumeralValue(s: string): int
    requires IsNumeral(s)
  {
    if s[0] == '-' then -(DigitsValue(s[1..]) as int) else DigitsValue(s)
  }

  /** A numeral as Swift prints one: no leading zero except in "0" itself, and no "-0". */
  predicate IsCanonical(s: string) {
    && IsNumeral(s)
    && (if s[0] == '-' then s[1] != '0' else (s[0] == '0' ==> |s| == 1))
  }

  /** `t` is `prefix`, then a canonical numeral whose value is `n`, then `suffix`. */
  predicate Shows(t: string, prefix: string, n: int, suffix: string) {
    && |prefix| + |suffix| < |t|
    && t[..|prefix|] == prefix
    && t[|t| - |suffix|..] == suffix
    && IsCanonical(t[|prefix|..|t| - |suffix|])
    && NumeralValue(t[|prefix|..|t| - |suffix|]) == n
  }

  lemma {:induction false} NatToStringValue(n: nat)
    ensures DigitsValue(NatToString(n)) == n
  {
    if n >= 10 {
      var s := NatToString(n);
      NatToStringValue(n / 10);
      assert s[..|s| - 1] == NatToString(n / 10);
    }
  }

  /** The rendering is a canonical numeral, and reading it gives back the number. */
  lemma IntToStringRoundTrip(n: int)
    ensures IsCanonical(IntToString(n)) && NumeralValue(IntToString(n)) == n
  {
    var s := IntToString(n);
    if n < 0 {
      NatToStringValue(-n);
      assert s[1..] == NatToString(-n);
      assert s[1] == NatToString(-n)[0];
    } else {
      NatToStringValue(n);
    }
  }

  lemma DigitCharOfValue(c: char)
    requires IsDigit(c)
    ensures DigitChar(DigitValue(c)) == c
  {
  }

  /** A digit string with no superfluous leading zero is the rendering of its own value. */
  lemma {:induction false} DigitsCanonical(d: string)
    requires |d| >= 1 && AllDigits(d) && (d[0] == '0' ==> |d| == 1)
    ensures NatToString(DigitsValue(d)) == d
  {
    var last := d[|d| - 1];
    DigitCharOfValue(last);
    var p := d[..|d| - 1];
    if |d| == 1 {
      assert p == [];
      assert d == [last];
    } else {
      assert p[0] == d[0];
      DigitsCanonical(p);
      assert DigitsValue(p) != 0;
      var v := DigitsValue(d);
      assert v == DigitsValue(p) * 10 + DigitValue(last);
      assert v / 10 == DigitsValue(p) && v % 10 == DigitValue(last);
      assert d == p + [last];
    }
  }

  /** The only canonical numeral with a given value is the rendering of that value. */
  lemma CanonicalUnique(s: string)
    requires IsCanonical(s)
    ensures s == IntToString(NumeralValue(s))
  {
    if s[0] == '-' {
      var d := s[1..];
      assert d[0] == s[1];
      DigitsCanonical(d);
      assert DigitsValue(d) != 0;
      assert s == "-" + d;
    } else {
      DigitsCanonical(s);
    }
  }

  /** Distinct numbers are rendered as distinct texts. */
  lemma IntToStringInjective(a: int, b: int)
    requires IntToString(a) == IntToString(b)
    ensures a == b
  {
    IntToStringRoundTrip(a);
    IntToStringRoundTrip(b);
  }

  /** A text built by interpolating `n` between `prefix` and `suffix` shows `n`. */
  lemma ShowsInterpolated(prefix: string, n: int, suffix: string)
    ensures Shows(prefix + IntToString(n) + suffix, prefix, n, suffix)
  {
    var d := IntToString(n);
    var t := prefix + d + suffix;
    IntToStringRoundTrip(n);
    assert t[..|prefix|] == prefix;
    assert t[|t| - |suffix|..] == suffix;
    assert t[|prefix|..|t| - |suffix|] == d;
  }

  /** A text that shows `n` between `prefix` and `suffix` is exactly that interpolation. */
  lemma ShowsExactly(t: string, prefix: string, n: int, suffix: string)
    requires Shows(t, prefix, n, suffix)
    ensures t == prefix + IntToString(n) + suffix
  {
    var m := t[|prefix|..|t| - |suffix|];
    CanonicalUnique(m);
    assert t == t[..|prefix|] + m + t[|t| - |suffix|..];
  }

  /** A text that starts with the numeral of `n` and ends with `suffix` shows `n`. */
  lemma ShowsLeading(n: int, suffix: string)
    ensures Shows(IntToString(n) + suffix, "", n, suffix)
  {
    ShowsInterpolated("", n, suffix);
    assert "" + IntToString(n) == IntToString(n);
  }

  /** The numeral of `n` on its own shows `n`. */
  lemma ShowsAlone(n: int)
    ensures Shows(IntToString(n), "", n, "")
  {
    ShowsLeading(n, "");
    assert IntToString(n) + "" == IntToString(n);
  }
}
