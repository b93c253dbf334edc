/** Java's 32-bit `int` and the decimal text that string concatenation
    (`"..." + n`, i.e. `Integer.toString(n)`) produces for it, together
    with a decoder for that text. */
module JavaInt {

  const INT32_MIN: int := -0x8000_0000
  const INT32_MAX: int := 0x7fff_ffff

  /** A value of Java's `int`. */
  type Int32 = x: int | INT32_MIN <= x <= INT32_MAX

  datatype Option<T> = None | Some(value: T)

  predicate IsDigit(c: char) {
    '0' <= c <= '9'
  }

  /** A character that can occur in the decimal text of an integer. */
  predicate IsNumberChar(c: char) {
    c == '-' || IsDigit(c)
  }

  predicate AllDigits(s: string) {
    forall i :: 0 <= i < |s| ==> IsDigit(s[i])
  }

  function DigitChar(d: nat): (c: char)
    requires d < 10
    ensures IsDigit(c)
    ensures DigitValue(c) == d
  {
    (('0' as int) + d) as char
  }

  function DigitValue(c: char): (d: nat)
    requires IsDigit(c)
    ensures d < 10
  {
    (c as int) - ('0' as int)
  }

  /** Decimal digits of `n`, most significant first, without leading zeros. */
  function NatToString(n: nat): (s: string)
    ensures 0 < |s|
    ensures AllDigits(s)
    ensures n < 10 <==> |s| == 1
    ensures n >= 10 ==> s[0] != '0'
    decreases n
  {
    if n < 10 then [DigitChar(n)] else NatToString(n / 10) + [DigitChar(n % 10)]
  }

  /** What Java prints for an integer: a minus sign for negative values,
      then the digits of the magnitude. */
  function IntToString(i: int): (s: string)
    ensures 0 < |s|
    ensures forall k :: 0 <= k < |s| ==> IsNumberChar(s[k])
    ensures s[0] == '-' <==> i < 0
  {
    if i < 0 then "-" + NatToString(-i) else NatToString(i)
  }

  /** The value of a run of decimal digits (the empty run is 0). */
  function DigitsValue(s: string): nat
    requires AllDigits(s)
  {
    if s == [] then 0 else DigitsValue(s[..|s| - 1]) * 10 + DigitValue(s[|s| - 1])
  }

  /** Reads back the text of an integer: an optional minus sign followed
      by at least one digit, and nothing else. */
  function ParseInt(s: string): (r: Option<int>)
    ensures r.Some? ==> 0 < |s| && forall k :: 0 <= k < |s| ==> IsNumberChar(s[k])
  {
    if 1 < |s| && s[0] == '-' && AllDigits(s[1..]) then
      assert forall k :: 1 <= k < |s| ==> s[k] == s[1..][k - 1];
      var magnitude: int := DigitsValue(s[1..]);
      Some(-magnitude)
    else if 0 < |s| && AllDigits(s) then Some(DigitsValue(s))
    else None
  }

  lemma {:induction false} NatRoundTrip(n: nat)
    ensures DigitsValue(NatToString(n)) == n
    decreases n
  {
    if n >= 10 {
      var s := NatToString(n);
      assert s[..|s| - 1] == NatToString(n / 10);
      NatRoundTrip(n / 10);
    }
  }

  /** The decimal text of every integer reads back as that integer. */
  lemma IntRoundTrip(i: int)
    ensures ParseInt(IntToString(i)) == Some(i)
  {
    var s := IntToString(i);
    if i < 0 {
      var digits := NatToString(-i);
      assert s[1..] == digits;
      assert AllDigits(s[1..]);
      NatRoundTrip(-i);
      assert DigitsValue(s[1..]) == -i;
    } else {
      assert s == NatToString(i);
      NatRoundTrip(i);
      assert !(s[0] == '-');
    }
  }

  /** Two integers print the same text only if they are equal. */
  lemma IntToStringInjective(i: int, j: int)
    requires IntToString(i) == IntToString(j)
    ensures i == j
  {
    IntRoundTrip(i);
    IntRoundTrip(j);
  }
}
