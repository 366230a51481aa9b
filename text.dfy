/** The two string formats the core produces: the decimal rendering of an
    `int` inside an interpolated message, and fixed-width lower-case
    hexadecimal, as `Guid.ToString("N")` writes it. Each carries its parser,
    so that formatting is shown to lose nothing. */
module Text {

  predicate IsDigit(c: char) {
    '0' <= c <= '9'
  }

  predicate IsLowerHex(c: char) {
    '0' <= c <= '9' || 'a' <= c <= 'f'
  }

  predicate AllDigits(s: string) {
    forall i :: 0 <= i < |s| ==> IsDigit(s[i])
  }

  predicate AllLowerHex(s: string) {
    forall i :: 0 <= i < |s| ==> IsLowerHex(s[i])
  }

  const DecimalAlphabet: string := "0123456789"
  const HexAlphabet: string := "0123456789abcdef"

  function DigitChar(d: nat): (c: char)
    requires d < 10
    ensures IsDigit(c) && c as int - '0' as int == d
  {
    DecimalAlphabet[d]
  }

  function HexChar(d: nat): (c: char)
    requires d < 16
    ensures IsLowerHex(c) && HexCharValue(c) == d
  {
    HexAlphabet[d]
  }

  function DigitValue(c: char): (d: nat)
    requires IsDigit(c)
    ensures d < 10
  {
    c as int - '0' as int
  }

  function HexCharValue(c: char): (d: nat)
    requires IsLowerHex(c)
    ensures d < 16
  {
    if c <= '9' then c as int - '0' as int else c as int - 'a' as int + 10
  }

  // ---------------------------------------------------------------- decimal

  /** The invariant-culture decimal rendering of a natural number: no sign,
      and no leading zero except for 0 itself. */
  function NatToDecimal(n: nat): (s: string)
    ensures |s| >= 1 && AllDigits(s)
    ensures s[0] == '0' <==> n == 0
    ensures n == 0 ==> s == "0"
    decreases n
  {
    if n < 10 then [DigitChar(n)] else NatToDecimal(n / 10) + [DigitChar(n % 10)]
  }

  /** The value of a string of decimal digits. */
  function DecimalValue(s: string): nat
    requires AllDigits(s)
  {
    if s == [] then 0 else DecimalValue(s[..|s| - 1]) * 10 + DigitValue(s[|s| - 1])
  }

  lemma {:induction false} DecimalRoundTrip(n: nat)
    ensures DecimalValue(NatToDecimal(n)) == n
    decreases n
  {
    if n >= 10 {
      var s := NatToDecimal(n);
      assert s[..|s| - 1] == NatToDecimal(n / 10);
      DecimalRoundTrip(n / 10);
    }
  }

  /** `int.ToString()` under the invariant culture: a leading '-' for negative values. */
  function IntToDecimal(n: int): (s: string)
    ensures |s| >= 1
    ensures s[0] == '-' <==> n < 0
    ensures AllDigits(s[1..]) && (n >= 0 ==> AllDigits(s))
    ensures s[0] == '0' ==> s == "0"
    ensures s[0] == '-' ==> |s| >= 2 && s[1] != '0'
  {
    if n < 0 then "-" + NatToDecimal(-n) else NatToDecimal(n)
  }

  /** Reads back what `IntToDecimal` writes. */
  function ParseDecimal(s: string): int
    requires |s| >= 1 && AllDigits(s[1..])
    requires s[0] != '-' ==> AllDigits(s)
  {
    if s[0] == '-' then -(DecimalValue(s[1..]) as int) else DecimalValue(s)
  }

  lemma IntDecimalRoundTrip(n: int)
    ensures ParseDecimal(IntToDecimal(n)) == n
  {
    var s := IntToDecimal(n);
    if n < 0 {
      var d := NatToDecimal(-n);
      assert s == "-" + d;
      assert s[1..] == d;
      DecimalRoundTrip(-n);
      assert ParseDecimal(s) == -(DecimalValue(d) as int);
    } else {
      assert s == NatToDecimal(n);
      assert IsDigit(s[0]);
      DecimalRoundTrip(n);
      assert ParseDecimal(s) == DecimalValue(s);
    }
  }

  /** Distinct integers have distinct renderings. */
  lemma IntToDecimalInjective(m: int, n: int)
    requires m != n
    ensures IntToDecimal(m) != IntToDecimal(n)
  {
    IntDecimalRoundTrip(m);
    IntDecimalRoundTrip(n);
  }

  // ------------------------------------------------------------ hexadecimal

  function Pow16(k: nat): (p: nat)
    ensures p >= 1
  {
    if k == 0 then 1 else 16 * Pow16(k - 1)
  }

  /** The low `width` hexadecimal digits of `n`, most significant first,
      padded with zeros: the "x8"/"x4"/"x2" formats of the Guid fields. */
  function HexFixed(n: nat, width: nat): (s: string)
    ensures |s| == width && AllLowerHex(s)
    decreases width
  {
    if width == 0 then [] else HexFixed(n / 16, width - 1) + [HexChar(n % 16)]
  }

  lemma LowerHexConcat(s: string, t: string)
    requires AllLowerHex(s) && AllLowerHex(t)
    ensures AllLowerHex(s + t)
  {
    forall i | 0 <= i < |s + t| ensures IsLowerHex((s + t)[i]) {
      if i < |s| { assert (s + t)[i] == s[i]; } else { assert (s + t)[i] == t[i - |s|]; }
    }
  }

  /** The value of a string of lower-case hexadecimal digits. */
  function HexValue(s: string): nat
    requires AllLowerHex(s)
  {
    if s == [] then 0 else HexValue(s[..|s| - 1]) * 16 + HexCharValue(s[|s| - 1])
  }

  lemma {:induction false} HexRoundTrip(n: nat, width: nat)
    requires n < Pow16(width)
    ensures HexValue(HexFixed(n, width)) == n
    decreases width
  {
    if width > 0 {
      var s := HexFixed(n, width);
      assert s[..|s| - 1] == HexFixed(n / 16, width - 1);
      HexRoundTrip(n / 16, width - 1);
    }
  }
}
