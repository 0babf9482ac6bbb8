/**
 * Numbers as text: integer rendering (Python's `str(n)` and the `:d` format),
 * the partial function `float(text)` on decimal literals, and the unit
 * conversion constants of aiida_jdftx/_constants.py.
 */
module Numbers {
  import opened Wrappers
  import opened Text

  /** Angstrom to bohr, the length unit of the generated input file. */
  const AngToBohr: real := 1.8897259886
  /** Bohr to angstrom, used when reading lattice vectors back. */
  const BohrToAng: real := 0.529177249
  /** Hartree to electronvolt, used for every energy read back. */
  const HarToEv: real := 27.2113966413

  predicate IsDigit(c: char) {
    '0' <= c <= '9'
  }

  predicate AllDigits(s: string) {
    forall i :: 0 <= i < |s| ==> IsDigit(s[i])
  }

  function DigitValue(c: char): nat
    requires IsDigit(c)
  {
    (c as int) - ('0' as int)
  }

  function DigitChar(d: nat): (c: char)
    requires d < 10
    ensures IsDigit(c) && DigitValue(c) == d
  {
    (('0' as int) + d) as char
  }

  /** The value of a string of decimal digits, most significant first. */
  function DigitsValue(s: string): nat
    requires AllDigits(s)
    decreases |s|
  {
    if |s| == 0 then 0 else DigitsValue(s[..|s| - 1]) * 10 + DigitValue(s[|s| - 1])
  }

  /** Python's `str(n)` for a natural number. */
  function NatToString(n: nat): (s: string)
    ensures |s| >= 1 && AllDigits(s)
    decreases n
  {
    if n < 10 then [DigitChar(n)] else NatToString(n / 10) + [DigitChar(n % 10)]
  }

  /** Python's `str(n)`, which is also what the format spec `:d` prints. */
  function IntToString(n: int): (s: string)
    ensures |s| >= 1
  {
    if n < 0 then "-" + NatToString(-n) else NatToString(n)
  }

  /** Reading the digits of `str(n)` gives `n` back. */
  lemma {:induction false} NatToStringValue(n: nat)
    ensures DigitsValue(NatToString(n)) == n
    decreases n
  {
    var s := NatToString(n);
    if n >= 10 {
      NatToStringValue(n / 10);
      assert s[..|s| - 1] == NatToString(n / 10);
    }
  }

  /** `x * 10 ** e` for an integer exponent of either sign. */
  function Scale10(x: real, e: int): real
    decreases if e >= 0 then e else -e
  {
    if e == 0 then x
    else if e > 0 then Scale10(x, e - 1) * 10.0
    else Scale10(x, e + 1) / 10.0
  }

  /** Index of the first `c` in `s`, or `|s|` when there is none. */
  function IndexOf(s: string, c: char): (i: nat)
    ensures i <= |s|
    ensures forall j :: 0 <= j < i ==> s[j] != c
    ensures i < |s| ==> s[i] == c
  {
    if |s| == 0 then 0 else if s[0] == c then 0 else 1 + IndexOf(s[1..], c)
  }

  /** Index of the first exponent marker `e` or `E`, or `|s|` when there is none. */
  function IndexOfExponent(s: string): (i: nat)
    ensures i <= |s|
    ensures forall j :: 0 <= j < i ==> s[j] != 'e' && s[j] != 'E'
    ensures i < |s| ==> s[i] == 'e' || s[i] == 'E'
  {
    if |s| == 0 then 0 else if s[0] == 'e' || s[0] == 'E' then 0 else 1 + IndexOfExponent(s[1..])
  }

  /**
   * Python's `float(text)` on decimal literals: surrounding whitespace, an
   * optional sign, digits with at most one decimal point (at least one digit),
   * and an optional exponent. `None` is the ValueError Python raises.
   */
  function ParseFloat(s: string): Option<real> {
    ParseStripped(Strip(s))
  }

  /** `float` on text that has no surrounding whitespace. */
  function ParseStripped(t: string): Option<real> {
    if |t| > 0 && (t[0] == '+' || t[0] == '-') then
      match ParseUnsigned(t[1..])
      case None => None
      case Some(v) => Some(if t[0] == '-' then -v else v)
    else
      ParseUnsigned(t)
  }

  function ParseUnsigned(t: string): Option<real> {
    var e := IndexOfExponent(t);
    match ParseMantissa(t[..e])
    case None => None
    case Some(m) =>
      if e == |t| then Some(m)
      else
        match ParseExponent(t[e + 1..])
        case None => None
        case Some(x) => Some(Scale10(m, x))
  }

  /** Digits with at most one decimal point and at least one digit. */
  function ParseMantissa(m: string): Option<real> {
    var p := IndexOf(m, '.');
    var whole := m[..p];
    var frac := if p < |m| then m[p + 1..] else "";
    if AllDigits(whole) && AllDigits(frac) && |whole| + |frac| > 0 then
      Some(DigitsValue(whole) as real + Decimals(frac))
    else
      None
  }

  /** The value of the digits after a decimal point. */
  function Decimals(frac: string): real
    requires AllDigits(frac)
  {
    if |frac| == 0 then 0.0 else (DigitValue(frac[0]) as real + Decimals(frac[1..])) / 10.0
  }

  /** An optional sign followed by at least one digit. */
  function ParseExponent(x: string): Option<int> {
    if |x| > 1 && (x[0] == '+' || x[0] == '-') && AllDigits(x[1..]) then
      var v: int := DigitsValue(x[1..]);
      Some(if x[0] == '-' then -v else v)
    else if |x| > 0 && AllDigits(x) then
      Some(DigitsValue(x))
    else
      None
  }

  /** A string of digits holds neither an exponent marker nor a decimal point. */
  lemma DigitsHaveNoMarkers(s: string)
    requires AllDigits(s)
    ensures IndexOfExponent(s) == |s| && IndexOf(s, '.') == |s|
  {
    assert forall i :: 0 <= i < |s| ==> s[i] != 'e' && s[i] != 'E' && s[i] != '.';
  }

  lemma MantissaOfDigits(s: string)
    requires |s| >= 1 && AllDigits(s)
    ensures ParseMantissa(s) == Some(DigitsValue(s) as real)
  {
    DigitsHaveNoMarkers(s);
    var p := IndexOf(s, '.');
    assert p == |s|;
    var whole := s[..p];
    assert whole == s;
    var frac: string := "";
    assert AllDigits(whole) && AllDigits(frac) && |whole| + |frac| > 0;
    assert Decimals(frac) == 0.0;
  }

  /** A string of digits parses as the number it spells. */
  lemma DigitsParse(s: string)
    requires |s| >= 1 && AllDigits(s)
    ensures ParseUnsigned(s) == Some(DigitsValue(s) as real)
  {
    DigitsHaveNoMarkers(s);
    MantissaOfDigits(s);
    assert s[..IndexOfExponent(s)] == s;
  }

  /** `float(str(n)) == n`: integer text written by the model reads back exactly. */
  lemma ParseIntToString(n: int)
    ensures ParseFloat(IntToString(n)) == Some(n as real)
  {
    if n < 0 {
      ParseNegativeInt(n);
    } else {
      ParseNatToString(n);
    }
  }

  lemma ParseNegativeInt(n: int)
    requires n < 0
    ensures ParseFloat(IntToString(n)) == Some(n as real)
  {
    NegativeIntText(n);
    NegativeParse(IntToString(n), (-n) as real);
  }

  /** `str(n)` of a negative `n` is a minus sign before the digits of `-n`. */
  lemma NegativeIntText(n: int)
    requires n < 0
    ensures var t := IntToString(n);
      |t| > 1 && t[0] == '-' && !IsSpace(t[|t| - 1]) && ParseUnsigned(t[1..]) == Some((-n) as real)
  {
    var t := IntToString(n);
    NatDigitsParse(-n);
    assert t[1..] == NatToString(-n);
  }

  lemma ParseNatToString(n: nat)
    ensures ParseFloat(NatToString(n)) == Some(n as real)
  {
    var t := NatToString(n);
    NatDigitsParse(n);
    UnsignedParse(t, n as real);
  }

  /** The digits of `str(n)` read as `n`; they start and end with a digit. */
  lemma NatDigitsParse(n: nat)
    ensures ParseUnsigned(NatToString(n)) == Some(n as real)
    ensures IsDigit(NatToString(n)[0]) && IsDigit(NatToString(n)[|NatToString(n)| - 1])
  {
    NatToStringValue(n);
    DigitsParse(NatToString(n));
  }

  /** A minus sign followed by a number whose last character is not blank. */
  lemma NegativeParse(t: string, v: real)
    requires |t| > 1 && t[0] == '-' && !IsSpace(t[|t| - 1]) && ParseUnsigned(t[1..]) == Some(v)
    ensures ParseFloat(t) == Some(-v)
  {
    ParseOfStripped(t);
    NegativeStripped(t, v);
  }

  /** A minus sign before a number that reads as `v` reads as `-v`. */
  lemma NegativeStripped(t: string, v: real)
    requires |t| > 1 && t[0] == '-' && ParseUnsigned(t[1..]) == Some(v)
    ensures ParseStripped(t) == Some(-v)
  {
  }

  /** Text with no surrounding whitespace is parsed as it stands. */
  lemma ParseOfStripped(t: string)
    requires |t| > 0 && !IsSpace(t[0]) && !IsSpace(t[|t| - 1])
    ensures ParseFloat(t) == ParseStripped(t)
  {
    assert Strip(t) == t;
  }

  /** A number that starts with a digit and does not end in a blank. */
  lemma UnsignedParse(t: string, v: real)
    requires |t| > 0 && IsDigit(t[0]) && !IsSpace(t[|t| - 1]) && ParseUnsigned(t) == Some(v)
    ensures ParseFloat(t) == Some(v)
  {
    ParseOfStripped(t);
  }

  /** `str(n)` is a single whitespace-free token. */
  lemma IntToStringIsWord(n: int)
    ensures IsWord(IntToString(n))
  {
    var s := IntToString(n);
    if n < 0 {
      assert s == "-" + NatToString(-n);
      assert forall i :: 1 <= i < |s| ==> s[i] == NatToString(-n)[i - 1];
    }
  }

  /** `str(n)` holds only digits and a leading minus sign. */
  lemma IntToStringChars(n: int)
    ensures forall i :: 0 <= i < |IntToString(n)| ==> IntToString(n)[i] == '-' || IsDigit(IntToString(n)[i])
  {
    var s := IntToString(n);
    if n < 0 {
      assert s == "-" + NatToString(-n);
      assert forall i :: 1 <= i < |s| ==> s[i] == NatToString(-n)[i - 1];
    }
  }
}
