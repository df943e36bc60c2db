/**
  Java `int` arithmetic and the base-10 conversions of `java.lang.Integer`
  (`parseInt`/`valueOf` and `toString`) that the tuning code relies on.
  Only ASCII digits are modelled.
 */
module JavaInt {
  import opened Wrappers

  const INT_MIN: int := -0x8000_0000
  const INT_MAX: int := 0x7FFF_FFFF
  const TWO_TO_32: int := 0x1_0000_0000

  predicate InInt32(n: int) {
    INT_MIN <= n <= INT_MAX
  }

  /** The value a Java `int` expression holds when the exact result is `n`
      (two's complement wrap-around). */
  function Wrap32(n: int): (r: int)
    ensures InInt32(r)
    ensures (n - r) % TWO_TO_32 == 0
    ensures InInt32(n) ==> r == n
  {
    var m := n % TWO_TO_32;
    if m > INT_MAX then m - TWO_TO_32 else m
  }

  predicate IsDigit(c: char) {
    '0' <= c <= '9'
  }

  function DigitValue(c: char): (d: nat)
    requires IsDigit(c)
    ensures d < 10
  {
    (c as int) - ('0' as int)
  }

  function DigitChar(d: nat): (c: char)
    requires d < 10
    ensures IsDigit(c) && DigitValue(c) == d
  {
    (('0' as int) + d) as char
  }

  predicate AllDigits(s: string) {
    forall i :: 0 <= i < |s| ==> IsDigit(s[i])
  }

  /** The number a string of decimal digits denotes, most significant digit first. */
  function DecimalValue(s: string): (v: nat)
    requires AllDigits(s)
  {
    if s == [] then 0 else 10 * DecimalValue(s[..|s| - 1]) + DigitValue(s[|s| - 1])
  }

  /**
    What `Integer.parseInt(s, 10)` returns, or None where it throws
    NumberFormatException: a null string, the empty string, a lone sign,
    any character that is not a digit after an optional leading '+' or '-',
    or a value outside the 32-bit range.
   */
  function IntegerValue(s: Option<string>): (r: Option<int>)
    ensures r.Some? ==> InInt32(r.value)
    ensures r.Some? ==> s.Some? && |s.value| > 0
  {
    match s
    case None => None
    case Some(t) =>
      if |t| == 0 then None
      else
        var body := if t[0] == '-' || t[0] == '+' then t[1..] else t;
        if |body| == 0 || !AllDigits(body) then None
        else
          var v := if t[0] == '-' then -(DecimalValue(body) as int) else DecimalValue(body);
          if InInt32(v) then Some(v) else None
  }

  /** `Integer.toString(n)` for a non-negative `n`: its decimal digits without leading zeros. */
  function Decimal(n: nat): (s: string)
    ensures |s| > 0 && AllDigits(s)
    ensures |s| > 1 ==> s[0] != '0'
  {
    if n < 10 then [DigitChar(n)] else Decimal(n / 10) + [DigitChar(n % 10)]
  }

  /** `Integer.toString(n)`: a '-' in front of the digits of a negative number. */
  function IntToString(n: int): (s: string)
    ensures |s| > 0
    ensures s[0] == '-' <==> n < 0
  {
    if n < 0 then "-" + Decimal(-n) else Decimal(n)
  }

  lemma {:induction false} DecimalValueOfDecimal(n: nat)
    ensures DecimalValue(Decimal(n)) == n
  {
    if n >= 10 {
      var s := Decimal(n);
      assert s[..|s| - 1] == Decimal(n / 10);
      DecimalValueOfDecimal(n / 10);
    }
  }

  /** Parsing what `Integer.toString` wrote gives back the number. */
  lemma ParseIntToString(n: int)
    requires InInt32(n)
    ensures IntegerValue(Some(IntToString(n))) == Some(n)
  {
    var t := IntToString(n);
    if n < 0 {
      assert t[1..] == Decimal(-n);
      DecimalValueOfDecimal(-n);
    } else {
      assert IsDigit(t[0]);
      DecimalValueOfDecimal(n);
    }
  }

  /** A prefix of a digit string denotes no more than the whole string. */
  lemma {:induction false} DecimalValuePrefix(s: string, k: nat)
    requires AllDigits(s) && k <= |s|
    ensures AllDigits(s[..k]) && DecimalValue(s[..k]) <= DecimalValue(s)
  {
    if k < |s| {
      var init := s[..|s| - 1];
      assert init[..k] == s[..k];
      DecimalValuePrefix(init, k);
    } else {
      assert s[..k] == s;
    }
  }

  /**
    The digit loop of `Integer.parseInt`: the digits are accumulated as a
    negative number and each step is checked against `limit` before it can
    overflow, so no intermediate value leaves the 32-bit range. Returns the
    negated value, or None for a non-digit or a value beyond the limit.
   */
  method AccumulateDigits(digits: string, limit: int) returns (r: Option<int>)
    requires limit == INT_MIN || limit == -INT_MAX
    ensures r == if AllDigits(digits) && DecimalValue(digits) <= -limit
                 then Some(-(DecimalValue(digits) as int)) else None
  {
    // Java's `limit / 10` truncates towards zero
    var multmin := -((-limit) / 10);
    var result := 0;
    var i := 0;
    while i < |digits|
      invariant 0 <= i <= |digits|
      invariant AllDigits(digits[..i])
      invariant result == -(DecimalValue(digits[..i]) as int)
      invariant DecimalValue(digits[..i]) <= -limit
    {
      if !IsDigit(digits[i]) {
        return None;
      }
      var digit := DigitValue(digits[i]);
      ghost var next := digits[..i + 1];
      assert next[..|next| - 1] == digits[..i];
      assert DecimalValue(next) == 10 * DecimalValue(digits[..i]) + digit;
      if result < multmin {
        if AllDigits(digits) {
          DecimalValuePrefix(digits, i + 1);
        }
        return None;
      }
      result := result * 10;
      if result < limit + digit {
        if AllDigits(digits) {
          DecimalValuePrefix(digits, i + 1);
        }
        return None;
      }
      result := result - digit;
      i := i + 1;
    }
    assert digits[..i] == digits;
    r := Some(result);
  }

  /**
    `Integer.parseInt(s, 10)` as the JDK computes it (and `Integer.valueOf`,
    which calls it): an optional leading sign, then at least one digit.
    Returns None where the JDK throws NumberFormatException.
   */
  method ParseInt(s: Option<string>) returns (r: Option<int>)
    ensures r == IntegerValue(s)
  {
    if s.None? {
      return None;
    }
    var t := s.value;
    if |t| == 0 {
      return None;
    }
    var negative := false;
    var limit := -INT_MAX;
    var i := 0;
    if t[0] < '0' {
      // possible leading "+" or "-"
      if t[0] == '-' {
        negative := true;
        limit := INT_MIN;
      } else if t[0] != '+' {
        assert !IsDigit(t[0]);
        return None;
      }
      if |t| == 1 {
        return None;
      }
      i := 1;
    }
    var accumulated := AccumulateDigits(t[i..], limit);
    if accumulated.None? {
      return None;
    }
    r := Some(if negative then accumulated.value else -accumulated.value);
  }
}
