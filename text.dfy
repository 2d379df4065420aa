/**
 * String helpers that the Kotlin code takes from its standard library:
 * `startsWith`, `String.toInt()` (which is `java.lang.Integer.parseInt`) and
 * `Int.toString()` for non-negative numbers.
 */
module Text {
  import opened Outcomes

  /** The range of a Kotlin `Int` (a 32-bit two's complement integer). */
  const IntMin: int := -0x8000_0000
  const IntMax: int := 0x7fff_ffff

  predicate StartsWith(s: string, prefix: string)
  {
    |prefix| <= |s| && s[..|prefix|] == prefix
  }

  predicate IsDigit(c: char)
  {
    '0' <= c <= '9'
  }

  predicate AllDigits(s: string)
  {
    forall i :: 0 <= i < |s| ==> IsDigit(s[i])
  }

  function DigitValue(c: char): (d: nat)
    requires IsDigit(c)
    ensures d < 10
  {
    (c as int) - ('0' as int)
  }

  function DigitChar(d: nat): (c: char)
    requires d < 10
    ensures IsDigit(c) && DigitValue(c) == d
  {
    (('0' as int) + d) as char
  }

  /** The value of a string of decimal digits, most significant first. */
  function DigitsValue(s: string): nat
    requires AllDigits(s)
  {
    if s == [] then 0 else 10 * DigitsValue(s[..|s| - 1]) + DigitValue(s[|s| - 1])
  }

  /**
   * `String.toInt()`: an optional leading '-' or '+', then at least one decimal
   * digit, and a value that fits in an `Int`; anything else throws a
   * NumberFormatException, which is `None` here.
   */
  function ParseInt(s: string): (r: Option<int>)
    ensures r.Some? ==> IntMin <= r.value <= IntMax
    ensures r.Some? ==> s != [] && (IsDigit(s[0]) || s[0] == '-' || s[0] == '+')
    ensures s == [] || s == "-" || s == "+" ==> r == None
  {
    if s == [] then None
    else
      var negative := s[0] == '-';
      var digits := if s[0] == '-' || s[0] == '+' then s[1..] else s;
      if digits == [] || !AllDigits(digits) then None
      else
        var magnitude: int := DigitsValue(digits);
        var v := if negative then -magnitude else magnitude;
        if IntMin <= v <= IntMax then Some(v) else None
  }

  /** `Int.toString()` for a non-negative number: its decimal digits, no sign, no leading zero. */
  function NatToString(n: nat): (s: string)
    ensures s != [] && AllDigits(s)
    ensures DigitsValue(s) == n
    ensures |s| > 1 ==> s[0] != '0'
  {
    if n < 10 then [DigitChar(n)]
    else
      var prefix := NatToString(n / 10);
      var s := prefix + [DigitChar(n % 10)];
      assert s[..|s| - 1] == prefix;
      s
  }

  /** Printing a number and parsing it back gives the number, as long as it fits in an `Int`. */
  lemma {:induction false} ParseNatToString(n: nat)
    requires n <= IntMax
    ensures ParseInt(NatToString(n)) == Some(n)
  {
    var s := NatToString(n);
    assert IsDigit(s[0]);
  }

  /** A '-' in front gives the negated number, down to `Int.MIN_VALUE`. */
  lemma {:induction false} ParseNegatedNatToString(n: nat)
    requires n <= -IntMin
    ensures ParseInt("-" + NatToString(n)) == Some(-(n as int))
  {
    var s := "-" + NatToString(n);
    assert s[1..] == NatToString(n);
  }

  /** A number one past `Int.MAX_VALUE` is refused rather than wrapped around. */
  lemma {:induction false} ParseRejectsOverflow()
    ensures ParseInt(NatToString(IntMax + 1)) == None
  {
    var s := NatToString(IntMax + 1);
    assert IsDigit(s[0]);
  }

  /** Distinct numbers print as distinct strings. */
  lemma {:induction false} NatToStringInjective(m: nat, n: nat)
    requires NatToString(m) == NatToString(n)
    ensures m == n
  {
  }
}
