/**
  Decimal rendering of row numbers, as a template literal `${n}` renders a
  non-negative integer, and the matching reader used to take a rendered text
  apart again.
 */
module Decimal {
  import opened Wrappers

  predicate IsDigit(c: char) {
    '0' <= c <= '9'
  }

  predicate AllDigits(s: string) {
    forall i :: 0 <= i < |s| ==> IsDigit(s[i])
  }

  function DigitChar(d: nat): (c: char)
    requires d < 10
    ensures IsDigit(c) && c as int - '0' as int == d
  {
    (d + '0' as int) as char
  }

  /** The number a string of digits denotes, most significant digit first. */
  function DigitsValue(ds: string): nat
    requires AllDigits(ds)
  {
    if ds == [] then 0
    else DigitsValue(ds[..|ds| - 1]) * 10 + (ds[|ds| - 1] as int - '0' as int)
  }

  /** The shortest decimal spelling of `n`: at least one digit, no leading zero, and it denotes `n`. */
  function NatToString(n: nat): (s: string)
    ensures |s| >= 1 && AllDigits(s)
    ensures s[0] == '0' ==> n == 0
    ensures |s| > 1 ==> s[0] != '0'
    ensures DigitsValue(s) == n
  {
    if n < 10 then [DigitChar(n)]
    else
      var prefix := NatToString(n / 10);
      var s := prefix + [DigitChar(n % 10)];
      assert s[..|s| - 1] == prefix;
      assert s[0] == prefix[0];
      s
  }

  /** How many digits `s` starts with. */
  function DigitPrefixLen(s: string): (k: nat)
    ensures k <= |s| && AllDigits(s[..k])
    ensures k < |s| ==> !IsDigit(s[k])
  {
    if s == [] || !IsDigit(s[0]) then 0
    else
      var k := 1 + DigitPrefixLen(s[1..]);
      assert s[..k] == [s[0]] + s[1..][..k - 1];
      k
  }

  /** A number read from the front of a text, with the text after it. */
  datatype Scan = Scan(value: nat, rest: string)

  /** Reads the longest run of digits at the front of `s`; `None` when there is none. */
  function ReadNat(s: string): Option<Scan> {
    var k := DigitPrefixLen(s);
    if k == 0 then None else Some(Scan(DigitsValue(s[..k]), s[k..]))
  }

  predicate StartsWithNonDigit(s: string) {
    s == [] || !IsDigit(s[0])
  }

  lemma {:induction false} DigitPrefixLenOfDigits(ds: string, rest: string)
    requires AllDigits(ds) && StartsWithNonDigit(rest)
    ensures DigitPrefixLen(ds + rest) == |ds|
  {
    if ds != [] {
      assert (ds + rest)[1..] == ds[1..] + rest;
      DigitPrefixLenOfDigits(ds[1..], rest);
    }
  }

  /** Reading back a rendered number gives the number and leaves what follows it. */
  lemma ReadNatToString(n: nat, rest: string)
    requires StartsWithNonDigit(rest)
    ensures ReadNat(NatToString(n) + rest) == Some(Scan(n, rest))
  {
    var ds := NatToString(n);
    DigitPrefixLenOfDigits(ds, rest);
    assert (ds + rest)[..|ds|] == ds;
    assert (ds + rest)[|ds|..] == rest;
  }
}
