// Base-16 integers as strconv.FormatInt(v, 16) prints them and
// strconv.ParseInt(s, 16, 64) reads them.
module Numerals {
  import opened Common

  const TWO_63: int := 0x8000_0000_0000_0000

  predicate IsInt64(v: int) {
    -TWO_63 <= v < TWO_63
  }

  predicate IsHexDigit(c: char) {
    '0' <= c <= '9' || 'a' <= c <= 'f' || 'A' <= c <= 'F'
  }

  // What FormatInt emits: lower-case digits only.
  predicate IsLowerHexDigit(c: char) {
    '0' <= c <= '9' || 'a' <= c <= 'f'
  }

  function DigitValue(c: char): (d: nat)
    requires IsHexDigit(c)
    ensures d < 16
  {
    if c <= '9' then c as int - '0' as int
    else if c <= 'F' then c as int - 'A' as int + 10
    else c as int - 'a' as int + 10
  }

  function DigitChar(d: nat): (c: char)
    requires d < 16
    ensures IsLowerHexDigit(c) && DigitValue(c) == d
  {
    if d < 10 then (d + '0' as int) as char else (d - 10 + 'a' as int) as char
  }

  function FormatNat(n: nat): string {
    if n < 16 then [DigitChar(n)] else FormatNat(n / 16) + [DigitChar(n % 16)]
  }

  function FormatInt(v: int): string {
    if v < 0 then "-" + FormatNat(-v) else FormatNat(v)
  }

  predicate AllHexDigits(s: string) {
    forall i :: 0 <= i < |s| ==> IsHexDigit(s[i])
  }

  function Value(s: string): nat
    requires AllHexDigits(s)
  {
    if s == "" then 0 else Value(s[..|s| - 1]) * 16 + DigitValue(s[|s| - 1])
  }

  // The unsigned part: no digit, or a character that is not one, is an error.
  function ParseMagnitude(s: string): Option<nat> {
    if s == "" || !AllHexDigits(s) then None else Some(Value(s))
  }

  // strconv.ParseInt(s, 16, 64), including the sign and the range error.
  function ParseInt(s: string): (r: Option<int>)
    ensures r.Some? ==> IsInt64(r.value)
  {
    if s == "" then None
    else
      var negative := s[0] == '-';
      var digits := if s[0] == '-' || s[0] == '+' then s[1..] else s;
      match ParseMagnitude(digits)
      case None => None
      case Some(n) =>
        var v: int := if negative then 0 - n else n;
        if IsInt64(v) then Some(v) else None
  }

  lemma {:induction false} FormatNatDigits(n: nat)
    ensures FormatNat(n) != ""
    ensures forall i :: 0 <= i < |FormatNat(n)| ==> IsLowerHexDigit(FormatNat(n)[i])
  {
    if n >= 16 {
      FormatNatDigits(n / 16);
    }
  }

  const DIGITS := "0123456789abcdef"

  // Positional notation, base 16, most significant digit first.
  lemma Positional(n: nat, d: nat)
    requires d < 16
    ensures FormatNat(d) == [DIGITS[d]]
    ensures n > 0 ==> FormatNat(16 * n + d) == FormatNat(n) + [DIGITS[d]]
  {
    assert (16 * n + d) / 16 == n && (16 * n + d) % 16 == d;
  }

  lemma {:induction false} ValueOfFormatNat(n: nat)
    ensures AllHexDigits(FormatNat(n)) && Value(FormatNat(n)) == n
  {
    FormatNatDigits(n);
    if n >= 16 {
      ValueOfFormatNat(n / 16);
      var s := FormatNat(n);
      assert s[..|s| - 1] == FormatNat(n / 16);
    } else {
      assert FormatNat(n)[..0] == "";
    }
  }

  // Printing then parsing is the identity on exactly the 64-bit integers.
  lemma ParseFormatInt(v: int)
    ensures ParseInt(FormatInt(v)) == if IsInt64(v) then Some(v) else None
  {
    var n := if v < 0 then -v else v;
    FormatNatDigits(n);
    ValueOfFormatNat(n);
    assert IsLowerHexDigit(FormatNat(n)[0]);
    assert v < 0 ==> FormatInt(v)[1..] == FormatNat(n);
  }

  // No two integers print alike, whatever their size.
  lemma FormatIntInjective(a: int, b: int)
    requires FormatInt(a) == FormatInt(b)
    ensures a == b
  {
    var m := if a < 0 then -a else a;
    var n := if b < 0 then -b else b;
    FormatNatDigits(m);
    FormatNatDigits(n);
    ValueOfFormatNat(m);
    ValueOfFormatNat(n);
    assert IsLowerHexDigit(FormatNat(m)[0]) && IsLowerHexDigit(FormatNat(n)[0]);
    if a < 0 {
      assert FormatInt(a)[0] == '-';
      assert FormatInt(a)[1..] == FormatNat(m) && FormatInt(b)[1..] == FormatNat(n);
    }
  }
}
