/**
 * Decimal renderings used by the control plane: std::to_string of an
 * unsigned value (gateway URL paths, gen_uid) and std::stoul in base 10
 * (the stream id taken from a request path).
 */
module Decimal {
  import opened Wrappers

  /** ULONG_MAX on an LP64 platform, the largest value std::stoul returns. */
  const ULongMax: nat := 0xFFFF_FFFF_FFFF_FFFF

  predicate IsDigit(c: char) { '0' <= c <= '9' }

  /** isspace in the C locale: ' ', '\t', '\n', '\v', '\f', '\r'. */
  predicate IsSpace(c: char) { c == ' ' || '\t' <= c <= '\r' }

  predicate AllDigits(s: string) { forall i :: 0 <= i < |s| ==> IsDigit(s[i]) }

  function DigitChar(d: nat): (c: char)
    requires d < 10
    ensures IsDigit(c)
  {
    ('0' as int + d) as char
  }

  function DigitValue(c: char): (d: nat)
    requires IsDigit(c)
    ensures d < 10 && DigitChar(d) == c
  {
    c as int - '0' as int
  }

  /** Length of the longest prefix of s whose characters all satisfy p. */
  function Run(s: string, p: char -> bool): (n: nat)
    ensures n <= |s|
    ensures forall i :: 0 <= i < n ==> p(s[i])
    ensures n == |s| || !p(s[n])
  {
    if s == [] || !p(s[0]) then 0 else 1 + Run(s[1..], p)
  }

  /** std::to_string of an unsigned value: no sign, no leading zero. */
  function ToString(n: nat): (s: string)
    ensures 1 <= |s| && AllDigits(s)
    ensures s[0] == '0' ==> n == 0
    ensures n == 0 ==> s == "0"
    decreases n
  {
    if n < 10 then [DigitChar(n)] else ToString(n / 10) + [DigitChar(n % 10)]
  }

  /** The number a string of decimal digits denotes, most significant digit first. */
  function Value(s: string): nat
    requires AllDigits(s)
  {
    if s == [] then 0 else Value(s[..|s| - 1]) * 10 + DigitValue(s[|s| - 1])
  }

  /** Reading back a rendering gives the rendered number. */
  lemma {:induction false} ValueOfToString(n: nat)
    ensures Value(ToString(n)) == n
    decreases n
  {
    var s := ToString(n);
    if n >= 10 {
      ValueOfToString(n / 10);
      assert s[..|s| - 1] == ToString(n / 10);
    }
  }

  /** Distinct numbers have distinct renderings. */
  lemma ToStringInjective(a: nat, b: nat)
    ensures ToString(a) == ToString(b) ==> a == b
  {
    ValueOfToString(a);
    ValueOfToString(b);
  }

  /**
   * std::stoul(s) with base 10: leading white space is skipped, an optional
   * '+' or '-' is taken, then the longest run of digits. No digit at all
   * throws std::invalid_argument and a magnitude above ULONG_MAX throws
   * std::out_of_range (both are None here); a '-' negates modulo 2^64.
   * Characters after the digits are ignored.
   */
  function Stoul(s: string): (r: Option<nat>)
    ensures r.Some? ==> r.value <= ULongMax
  {
    var t := s[Run(s, IsSpace)..];
    var signed := |t| > 0 && (t[0] == '+' || t[0] == '-');
    var u := if signed then t[1..] else t;
    var d := Run(u, IsDigit);
    if d == 0 then None
    else
      var v := Value(u[..d]);
      if v > ULongMax then None
      else if signed && t[0] == '-' && v != 0 then Some(ULongMax + 1 - v)
      else Some(v)
  }

  /** A rendered number that fits in unsigned long is read back unchanged. */
  lemma StoulOfToString(n: nat)
    requires n <= ULongMax
    ensures Stoul(ToString(n)) == Some(n)
  {
    var s := ToString(n);
    assert !IsSpace(s[0]);
    assert Run(s, IsSpace) == 0;
    assert Run(s, IsDigit) == |s| by {
      RunAll(s, IsDigit);
    }
    assert s[..|s|] == s;
    ValueOfToString(n);
  }

  /** A string in which no character is a digit is refused. */
  lemma StoulNeedsDigit(s: string)
    requires forall i :: 0 <= i < |s| ==> !IsDigit(s[i])
    ensures Stoul(s) == None
  {
    var t := s[Run(s, IsSpace)..];
    var u := if |t| > 0 && (t[0] == '+' || t[0] == '-') then t[1..] else t;
    assert |u| == 0 || !IsDigit(u[0]);
  }

  lemma {:induction false} RunAll(s: string, p: char -> bool)
    requires forall i :: 0 <= i < |s| ==> p(s[i])
    ensures Run(s, p) == |s|
  {
    if s != [] {
      RunAll(s[1..], p);
    }
  }
}
