/**
 * String helpers shared by both adapters: the decimal rendering JavaScript
 * uses when a number is interpolated into a template literal, and the small
 * parsers that recover what was interpolated.
 */
module Strings {

  predicate IsDigit(c: char) { '0' <= c <= '9' }

  function DigitChar(d: nat): (c: char)
    requires d < 10
    ensures IsDigit(c) && c as int - '0' as int == d
  {
    "0123456789"[d]
  }

  function DigitValue(c: char): nat
  {
    if IsDigit(c) then c as int - '0' as int else 0
  }

  /** `${n}` for a non-negative integer: its decimal digits, no leading zero. */
  function NatToString(n: nat): (s: string)
    ensures |s| >= 1
    ensures forall k :: 0 <= k < |s| ==> IsDigit(s[k])
    ensures (s[0] == '0') == (n == 0)
  {
    if n < 10 then [DigitChar(n)] else NatToString(n / 10) + [DigitChar(n % 10)]
  }

  /** `${n}` for any integer (a bigint payload): a minus sign before the digits of |n|. */
  function IntToString(n: int): (s: string)
    ensures n < 0 <==> (|s| > 0 && s[0] == '-')
    ensures n < 0 ==> s == "-" + NatToString(-n)
    ensures n >= 0 ==> s == NatToString(n)
  {
    if n < 0 then "-" + NatToString(-n) else NatToString(n)
  }

  /** Reads a string of decimal digits back into the number it denotes. */
  function ParseNat(s: string): nat
  {
    if s == [] then 0 else ParseNat(s[..|s| - 1]) * 10 + DigitValue(s[|s| - 1])
  }

  /** Rendering a number and parsing it back gives the number. */
  lemma {:induction false} ParseNatToString(n: nat)
    ensures ParseNat(NatToString(n)) == n
  {
    var s := NatToString(n);
    if n >= 10 {
      ParseNatToString(n / 10);
      assert s[..|s| - 1] == NatToString(n / 10);
    }
  }

  /** Rendering is injective: distinct indices never render alike. */
  lemma NatToStringInjective(m: nat, n: nat)
    requires NatToString(m) == NatToString(n)
    ensures m == n
  {
    ParseNatToString(m);
    ParseNatToString(n);
  }

  /** The text after the last '/' of `s` (all of `s` when it holds none). */
  function LastSegment(s: string): string
  {
    if s == [] then []
    else if s[|s| - 1] == '/' then []
    else LastSegment(s[..|s| - 1]) + [s[|s| - 1]]
  }

  lemma {:induction false} LastSegmentAfterSlash(prefix: string, segment: string)
    requires forall k :: 0 <= k < |segment| ==> segment[k] != '/'
    ensures LastSegment(prefix + "/" + segment) == segment
  {
    var s := prefix + "/" + segment;
    if segment != [] {
      var front := segment[..|segment| - 1];
      assert s[..|s| - 1] == prefix + "/" + front;
      LastSegmentAfterSlash(prefix, front);
    }
  }

  /** The text before the first ':' of `s` (all of `s` when it holds none). */
  function KindPrefix(s: string): string
  {
    if s == [] || s[0] == ':' then [] else [s[0]] + KindPrefix(s[1..])
  }

  lemma {:induction false} KindPrefixBeforeColon(kind: string, rest: string)
    requires forall k :: 0 <= k < |kind| ==> kind[k] != ':'
    ensures KindPrefix(kind + ":" + rest) == kind
  {
    if kind != [] {
      assert (kind + ":" + rest)[1..] == kind[1..] + ":" + rest;
      KindPrefixBeforeColon(kind[1..], rest);
    }
  }
}
