/**
 * The two pieces of PHP's runtime that the cast layer depends on:
 * rendering an `int` inside an interpolated string ("{$value->srid}") and
 * the `(int)` cast of a string, which keeps only the leading integer.
 */
module PhpRuntime {

  /** PHP's `int` on a 64-bit build. */
  const MinInt: int := -0x8000_0000_0000_0000
  const MaxInt: int := 0x7FFF_FFFF_FFFF_FFFF
  type Int64 = i: int | MinInt <= i <= MaxInt

  predicate IsDigit(c: char) {
    '0' <= c <= '9'
  }

  predicate IsDigits(s: string) {
    forall i :: 0 <= i < |s| ==> IsDigit(s[i])
  }

  /** The whitespace PHP skips in front of a numeric string: " \t\n\r\v\f". */
  predicate IsSpace(c: char) {
    c == ' ' || c == '\t' || c == '\n' || c == '\r' || c as int == 11 || c as int == 12
  }

  function DigitChar(d: nat): (c: char)
    requires d < 10
    ensures IsDigit(c)
  {
    (('0' as int) + d) as char
  }

  function DigitValue(c: char): (d: nat)
    requires IsDigit(c)
    ensures d < 10 && DigitChar(d) == c
  {
    (c as int) - ('0' as int)
  }

  /** Decimal digits of `n`, most significant first, as PHP prints it. */
  function NatToString(n: nat): (s: string)
    ensures |s| > 0 && IsDigits(s)
    decreases n
  {
    if n < 10 then [DigitChar(n)] else NatToString(n / 10) + [DigitChar(n % 10)]
  }

  /** An `int` interpolated into a string: an optional minus, then the digits of |i|. */
  function IntToString(i: int): (s: string)
    ensures |s| > 0
    ensures s[0] == '-' || IsDigit(s[0])
    ensures forall k :: 0 <= k < |s| ==> s[k] == '-' || IsDigit(s[k])
  {
    if i < 0 then "-" + NatToString(-i) else NatToString(i)
  }

  /** The number a run of decimal digits denotes. */
  function DigitsValue(d: string): nat
    requires IsDigits(d)
    decreases |d|
  {
    if d == [] then 0 else DigitsValue(d[..|d| - 1]) * 10 + DigitValue(d[|d| - 1])
  }

  /** Length of the longest prefix of `t` that satisfies IsDigit. */
  function DigitRun(t: string): (k: nat)
    ensures k <= |t| && IsDigits(t[..k])
    ensures k < |t| ==> !IsDigit(t[k])
    decreases |t|
  {
    if t == [] || !IsDigit(t[0]) then 0
    else
      var k := DigitRun(t[1..]);
      assert t[..1 + k] == [t[0]] + t[1..][..k];
      1 + k
  }

  /** Length of the longest prefix of `t` that satisfies IsSpace. */
  function SpaceRun(t: string): (k: nat)
    ensures k <= |t|
    ensures forall i :: 0 <= i < k ==> IsSpace(t[i])
    ensures k < |t| ==> !IsSpace(t[k])
    decreases |t|
  {
    if t == [] || !IsSpace(t[0]) then 0 else 1 + SpaceRun(t[1..])
  }

  /** PHP saturates a string whose integer does not fit in 64 bits. */
  function Clamp(m: int): Int64 {
    if m < MinInt then MinInt else if m > MaxInt then MaxInt else m
  }

  /**
   * `(int) $text`: skip leading whitespace, read an optional sign and the
   * longest run of digits that follows, and ignore the rest. No digits
   * gives 0.
   */
  function IntCast(t: string): (r: Int64)
    ensures (forall k :: 0 <= k < |t| ==> !IsDigit(t[k])) ==> r == 0
  {
    var u := t[SpaceRun(t)..];
    var signed := |u| > 0 && (u[0] == '-' || u[0] == '+');
    var v := if signed then u[1..] else u;
    var m: int := DigitsValue(v[..DigitRun(v)]);
    Clamp(if signed && u[0] == '-' then -m else m)
  }

  lemma {:induction false} DigitsValueOfNatToString(n: nat)
    ensures DigitsValue(NatToString(n)) == n
    decreases n
  {
    var s := NatToString(n);
    if n >= 10 {
      DigitsValueOfNatToString(n / 10);
      assert s[..|s| - 1] == NatToString(n / 10);
    }
  }

  /** A digit run ends where the digits end. */
  lemma {:induction false} DigitRunOfDigitsThen(d: string, t: string)
    requires IsDigits(d)
    requires t == [] || !IsDigit(t[0])
    ensures DigitRun(d + t) == |d|
    decreases |d|
  {
    if d != [] {
      assert (d + t)[1..] == d[1..] + t;
      DigitRunOfDigitsThen(d[1..], t);
    } else {
      assert d + t == t;
    }
  }

  /**
   * The cast recovers a rendered `int` from the front of a string, whatever
   * follows it, as long as what follows does not start with a digit.
   */
  lemma IntCastOfRendered(i: Int64, t: string)
    requires t == [] || !IsDigit(t[0])
    ensures IntCast(IntToString(i) + t) == i
  {
    var s := IntToString(i) + t;
    assert SpaceRun(s) == 0;
    assert s[0..] == s;
    var n: int := i;
    if n < 0 {
      var d := NatToString(-n);
      assert s[1..] == d + t;
      DigitRunOfDigitsThen(d, t);
      assert (d + t)[..|d|] == d;
      DigitsValueOfNatToString(-n);
    } else {
      var d := NatToString(i);
      assert s == d + t;
      DigitRunOfDigitsThen(d, t);
      assert (d + t)[..|d|] == d;
      DigitsValueOfNatToString(i);
    }
  }
}
