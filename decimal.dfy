/** Go's integer arithmetic and decimal formatting as used by Statistics.String:
    truncating division and the `%v` rendering of an `int`. */
module Decimal {
  import opened Errors

  /** Go's `a / d` for a positive divisor: the quotient is truncated toward zero, so the
      remainder has the sign of `a` (Dafny's `/` would round toward minus infinity). */
  function GoDiv(a: int, d: int): (q: int)
    requires d > 0
    ensures 0 <= a ==> 0 <= a - q * d < d
    ensures a < 0 ==> -d < a - q * d <= 0
  {
    if a >= 0 then a / d else -((-a) / d)
  }

  predicate IsDigit(c: char) {
    '0' <= c <= '9'
  }

  predicate AllDigits(s: string) {
    forall i :: 0 <= i < |s| ==> IsDigit(s[i])
  }

  function DigitChar(d: nat): (c: char)
    requires d < 10
    ensures IsDigit(c)
  {
    ('0' as int + d) as char
  }

  /** The number a string of decimal digits denotes, most significant digit first. */
  function DigitsValue(s: string): nat
    requires AllDigits(s)
    decreases |s|
  {
    if s == [] then 0
    else DigitsValue(s[..|s| - 1]) * 10 + (s[|s| - 1] as int - '0' as int)
  }

  /** The decimal digits of `n` as fmt writes them: at least one digit, no leading zero,
      denoting `n`. */
  function NatToString(n: nat): (s: string)
    ensures 1 <= |s| && AllDigits(s)
    ensures s[0] == '0' ==> n == 0
    ensures |s| > 1 ==> s[0] != '0'
    ensures DigitsValue(s) == n
    decreases n
  {
    if n < 10 then [DigitChar(n)]
    else
      var prefix := NatToString(n / 10);
      var s := prefix + [DigitChar(n % 10)];
      assert s[..|s| - 1] == prefix;
      assert s[0] == prefix[0];
      s
  }

  /** fmt's `%v` of an `int`: a minus sign for negative numbers, then the digits of the
      magnitude, without a leading zero. */
  function IntToString(n: int): (s: string)
    ensures 1 <= |s|
    ensures s[0] == '-' <==> n < 0
    ensures var m := if n < 0 then s[1..] else s;
      && 1 <= |m| && AllDigits(m) && (|m| > 1 ==> m[0] != '0')
      && DigitsValue(m) == if n < 0 then -n else n
  {
    if n < 0 then
      var s := "-" + NatToString(-n);
      assert s[1..] == NatToString(-n);
      s
    else NatToString(n)
  }

  /** The length of the run of digits at the front of `s`. */
  function DigitRun(s: string): (k: nat)
    ensures k <= |s|
    ensures AllDigits(s[..k])
    ensures k < |s| ==> !IsDigit(s[k])
    decreases |s|
  {
    if s != [] && IsDigit(s[0]) then
      var k := 1 + DigitRun(s[1..]);
      assert forall i :: 1 <= i < k ==> s[..k][i] == s[1..][..k - 1][i - 1];
      k
    else 0
  }

  /** Reads a run of digits without a leading zero off the front of `t`, taking every
      digit there is, and returns the number it denotes with the rest of the string. A
      leading zero before further digits is not `%v`'s form and is refused. */
  function ParseDigits(t: string): Option<(nat, string)> {
    var k := DigitRun(t);
    if k == 0 || (k > 1 && t[0] == '0') then None
    else Some((DigitsValue(t[..k]), t[k..]))
  }

  /** Reads an optionally negative decimal integer, written as `%v` writes it, off the front
      of `s`, and returns it with the rest of the string. A minus sign before zero is not
      `%v`'s form and is refused. */
  function ParseInt(s: string): Option<(int, string)> {
    if |s| > 0 && s[0] == '-' then
      var (magnitude, rest) :- ParseDigits(s[1..]);
      if magnitude == 0 then None
      else Some((-(magnitude as int), rest))
    else
      var (magnitude, rest) :- ParseDigits(s);
      Some((magnitude as int, rest))
  }

  /** A run of digits without a leading zero is exactly the text of the number it denotes:
      NatToString is the only way to write a number in this form. */
  lemma {:induction false} CanonicalDigits(m: string)
    requires 1 <= |m| && AllDigits(m) && (|m| > 1 ==> m[0] != '0')
    ensures NatToString(DigitsValue(m)) == m
    decreases |m|
  {
    var last := m[|m| - 1];
    var d := last as int - '0' as int;
    assert DigitChar(d) == last;
    if |m| > 1 {
      var prefix := m[..|m| - 1];
      assert prefix[0] == m[0];
      CanonicalDigits(prefix);
      var v := DigitsValue(m);
      assert v == DigitsValue(prefix) * 10 + d;
      if DigitsValue(prefix) == 0 {
        assert false;
      }
      assert v / 10 == DigitsValue(prefix) && v % 10 == d;
      assert m == prefix + [last];
    }
  }

  /** Whatever ParseDigits accepts is the text of the number it returns, then the rest. */
  lemma ParseDigitsCanonical(t: string, n: nat, rest: string)
    requires ParseDigits(t) == Some((n, rest))
    ensures t == NatToString(n) + rest
  {
    var k := DigitRun(t);
    CanonicalDigits(t[..k]);
    assert t == t[..k] + t[k..];
  }

  /** Whatever ParseInt accepts is the `%v` text of the number it returns, followed by the
      rest: no other spelling of a number reads back. */
  lemma ParseIntCanonical(s: string, n: int, rest: string)
    requires ParseInt(s) == Some((n, rest))
    ensures s == IntToString(n) + rest
  {
    if |s| > 0 && s[0] == '-' {
      ParseDigitsCanonical(s[1..], -n, rest);
      assert s == "-" + s[1..];
    } else {
      ParseDigitsCanonical(s, n, rest);
    }
  }

  /** A run of digits followed by a non-digit is read back exactly. */
  lemma {:induction false} DigitRunOfDigits(d: string, rest: string)
    requires AllDigits(d)
    requires rest == [] || !IsDigit(rest[0])
    ensures DigitRun(d + rest) == |d|
    decreases |d|
  {
    if d != [] {
      assert (d + rest)[1..] == d[1..] + rest;
      DigitRunOfDigits(d[1..], rest);
    }
  }

  /** ParseDigits undoes NatToString whatever follows, as long as it does not start with a
      digit. */
  lemma ParseDigitsOf(n: nat, rest: string)
    requires rest == [] || !IsDigit(rest[0])
    ensures ParseDigits(NatToString(n) + rest) == Some((n, rest))
  {
    var digits := NatToString(n);
    var t := digits + rest;
    DigitRunOfDigits(digits, rest);
    assert t[..|digits|] == digits;
    assert t[|digits|..] == rest;
    assert t[0] == digits[0];
  }

  lemma ParseNegative(m: nat, rest: string)
    requires m > 0
    requires rest == [] || !IsDigit(rest[0])
    ensures ParseInt("-" + (NatToString(m) + rest)) == Some((-(m as int), rest))
  {
    ParseDigitsOf(m, rest);
    assert ("-" + (NatToString(m) + rest))[1..] == NatToString(m) + rest;
  }

  lemma ParseNonNegative(m: nat, rest: string)
    requires rest == [] || !IsDigit(rest[0])
    ensures ParseInt(NatToString(m) + rest) == Some((m, rest))
  {
    ParseDigitsOf(m, rest);
    assert IsDigit((NatToString(m) + rest)[0]);
  }

  /** ParseInt undoes IntToString whatever follows, as long as it does not start with a
      digit. */
  lemma ParseIntToString(n: int, rest: string)
    requires rest == [] || !IsDigit(rest[0])
    ensures ParseInt(IntToString(n) + rest) == Some((n, rest))
  {
    if n < 0 {
      ParseNegative(-n, rest);
      assert IntToString(n) + rest == "-" + (NatToString(-n) + rest);
    } else {
      ParseNonNegative(n, rest);
    }
  }
}
