/**
 * Python's decimal rendering of an integer, `str(i)` (the text that an
 * f-string such as `f"x{i}"` splices in): an optional minus sign followed by
 * the digits of the magnitude, without leading zeros. The rendering is given a
 * parser as its inverse, which makes it injective: distinct integers never
 * render to the same text.
 */
module PyInt {

  predicate IsDigit(c: char) {
    '0' <= c <= '9'
  }

  function DigitChar(d: nat): (c: char)
    requires d < 10
    ensures IsDigit(c) && c as int - '0' as int == d
  {
    "0123456789"[d]
  }

  /** The digits of `n`, most significant first. */
  function NatToDecimal(n: nat): (s: string)
    ensures |s| >= 1
    ensures forall k :: 0 <= k < |s| ==> IsDigit(s[k])
    ensures s[0] == '0' ==> n == 0
    decreases n
  {
    if n < 10 then [DigitChar(n)] else NatToDecimal(n / 10) + [DigitChar(n % 10)]
  }

  /** An optional minus sign followed by at least one decimal digit. */
  predicate IsIntText(s: string) {
    && |s| >= 1
    && (forall k :: 1 <= k < |s| ==> IsDigit(s[k]))
    && (s[0] != '-' ==> IsDigit(s[0]))
    && (s[0] == '-' ==> |s| >= 2)
  }

  /** `str(i)` for a Python `int`. */
  function Str(i: int): (s: string)
    ensures IsIntText(s)
    ensures s[0] == '-' <==> i < 0
  {
    if i < 0 then "-" + NatToDecimal(-i) else NatToDecimal(i)
  }

  function DigitValue(c: char): (d: nat)
    requires IsDigit(c)
    ensures d < 10
  {
    c as int - '0' as int
  }

  /** The number a string of decimal digits denotes (most significant first). */
  function DecimalValue(s: string): nat
    requires forall k :: 0 <= k < |s| ==> IsDigit(s[k])
  {
    if s == [] then 0
    else 10 * DecimalValue(s[..|s| - 1]) + DigitValue(s[|s| - 1])
  }

  /** The inverse of `Str`: `int(s)` restricted to the texts `Str` produces. */
  function ParseInt(s: string): int
    requires IsIntText(s)
  {
    if s[0] == '-' then -(DecimalValue(s[1..]) as int) else DecimalValue(s)
  }

  lemma {:induction false} DecimalRoundTrip(n: nat)
    ensures DecimalValue(NatToDecimal(n)) == n
    decreases n
  {
    var s := NatToDecimal(n);
    if n >= 10 {
      assert s[..|s| - 1] == NatToDecimal(n / 10);
      DecimalRoundTrip(n / 10);
    }
  }

  /** Reading back what `Str` wrote gives the original integer. */
  lemma StrRoundTrip(i: int)
    ensures ParseInt(Str(i)) == i
  {
    var s := Str(i);
    if i < 0 {
      var digits := NatToDecimal(-i);
      assert s == "-" + digits;
      assert s[1..] == digits;
      DecimalRoundTrip(-i);
      assert ParseInt(s) == -(DecimalValue(digits) as int);
    } else {
      DecimalRoundTrip(i);
      assert s[0] != '-';
    }
  }

  /** Distinct integers render to distinct texts. */
  lemma StrInjective(i: int, j: int)
    requires Str(i) == Str(j)
    ensures i == j
  {
    StrRoundTrip(i);
    StrRoundTrip(j);
  }
}
