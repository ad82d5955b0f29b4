/** Decimal rendering of integers, as Rust's `{}` formatter prints an integer.
    The engine renders the Speed setting's value this way, and the N-body update
    writes entity indices into its log lines this way. */
module Decimal {

  /** The ASCII digit for `d`. */
  function DigitChar(d: nat): (c: char)
    requires d < 10
    ensures '0' <= c <= '9'
  {
    ('0' as int + d) as char
  }

  /** The value of an ASCII digit. */
  function DigitValue(c: char): nat
    requires '0' <= c <= '9'
  {
    c as int - '0' as int
  }

  /** The digits of `n`, most significant first, without leading zeros. */
  function NatToString(n: nat): (s: string)
    ensures |s| >= 1
    ensures forall k :: 0 <= k < |s| ==> '0' <= s[k] <= '9'
    ensures |s| > 1 ==> s[0] != '0'
    ensures s[0] == '0' <==> n == 0
  {
    if n < 10 then [DigitChar(n)] else NatToString(n / 10) + [DigitChar(n % 10)]
  }

  /** An optional minus sign followed by the digits of the magnitude. */
  function IntToString(n: int): (s: string)
    ensures CanonicalInt(s)
    ensures s[0] == '-' <==> n < 0
  {
    if n < 0 then "-" + NatToString(-n) else NatToString(n)
  }

  /** Reads a string of ASCII digits back as a number. */
  function ParseNat(s: string): nat
    requires forall k :: 0 <= k < |s| ==> '0' <= s[k] <= '9'
  {
    if s == [] then 0 else ParseNat(s[..|s| - 1]) * 10 + DigitValue(s[|s| - 1])
  }

  /** An optional minus sign followed by at least one ASCII digit. */
  predicate IntSyntax(s: string)
  {
    |s| >= 1 && (s[0] == '-' || '0' <= s[0] <= '9') && (s[0] == '-' ==> |s| >= 2)
    && forall k :: 1 <= k < |s| ==> '0' <= s[k] <= '9'
  }

  /** The form `{}` prints: no leading zero, and no minus sign before zero. */
  predicate CanonicalInt(s: string)
  {
    IntSyntax(s) && (s[0] == '0' ==> |s| == 1) && (s[0] == '-' ==> s[1] != '0')
  }

  /** Reads an optional minus sign followed by ASCII digits. */
  function ParseInt(s: string): int
    requires IntSyntax(s)
  {
    if s[0] == '-' then 0 - ParseNat(s[1..]) as int else ParseNat(s)
  }

  /** Rendering a natural number loses nothing: its digits read back as the number. */
  lemma {:induction false} NatRoundTrip(n: nat)
    ensures ParseNat(NatToString(n)) == n
  {
    var s := NatToString(n);
    if n >= 10 {
      NatRoundTrip(n / 10);
      assert s[..|s| - 1] == NatToString(n / 10);
      assert DigitValue(s[|s| - 1]) == n % 10;
    }
  }

  /** Rendering an integer loses nothing, sign included, so distinct values render
      differently. */
  lemma IntRoundTrip(n: int)
    ensures IntSyntax(IntToString(n)) && ParseInt(IntToString(n)) == n
  {
    if n < 0 {
      var t := NatToString(-n);
      var s := "-" + t;
      assert s[1..] == t;
      assert forall k :: 1 <= k < |s| ==> s[k] == t[k - 1];
      NatRoundTrip(-n);
    } else {
      NatRoundTrip(n);
    }
  }
}
