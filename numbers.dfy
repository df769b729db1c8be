/**
 * Decimal number parsing, the part of strconv.ParseFloat(s, 64) that agreement
 * and invoice fields use, over exact rationals instead of float64, and the
 * chaincode's validateNumber on top of it.
 */
module Numbers {
  import opened Wrappers

  predicate IsDigit(c: char) {
    '0' <= c <= '9'
  }

  predicate AllDigits(s: string) {
    forall i :: 0 <= i < |s| ==> IsDigit(s[i])
  }

  function DigitValue(c: char): nat
    requires IsDigit(c)
  {
    c as int - '0' as int
  }

  /** The value of a run of decimal digits, most significant digit first. */
  function DigitsValue(s: string): nat
    requires AllDigits(s)
  {
    if s == [] then 0 else 10 * DigitsValue(s[..|s| - 1]) + DigitValue(s[|s| - 1])
  }

  function Pow10(k: nat): (p: nat)
    ensures p >= 1
  {
    if k == 0 then 1 else 10 * Pow10(k - 1)
  }

  /** Index of the first character of `s` that is `a` or `b`; |s| when there is none. */
  function FirstOf(s: string, a: char, b: char): (i: nat)
    ensures i <= |s|
    ensures forall j :: 0 <= j < i ==> s[j] != a && s[j] != b
    ensures i < |s| ==> s[i] == a || s[i] == b
  {
    if s == [] || s[0] == a || s[0] == b then 0 else 1 + FirstOf(s[1..], a, b)
  }

  /** Digits with at most one '.', and at least one digit in all ("5", "5.", ".5", "10.25"). */
  function ParseMantissa(m: string): (r: Option<real>)
    ensures r.Some? ==> r.value >= 0.0
    ensures m != [] && AllDigits(m) ==> r == Some(DigitsValue(m) as real)
  {
    var dot := FirstOf(m, '.', '.');
    var whole := m[..dot];
    var fraction := if dot < |m| then m[dot + 1..] else [];
    assert AllDigits(m) ==> dot == |m| && whole == m;
    if AllDigits(whole) && AllDigits(fraction) && |whole| + |fraction| > 0 then
      Some(DigitsValue(whole) as real + DigitsValue(fraction) as real / Pow10(|fraction|) as real)
    else
      None
  }

  /** The exponent after 'e' or 'E': an optional sign and at least one digit. */
  function ParseExponent(e: string): Option<int> {
    if |e| > 0 && (e[0] == '+' || e[0] == '-') then
      var digits := e[1..];
      if digits != [] && AllDigits(digits) then
        Some(if e[0] == '-' then -(DigitsValue(digits) as int) else DigitsValue(digits) as int)
      else
        None
    else if e != [] && AllDigits(e) then
      Some(DigitsValue(e))
    else
      None
  }

  /** v * 10^e. */
  function Scale(v: real, e: int): (r: real)
    ensures v >= 0.0 ==> r >= 0.0
  {
    if e >= 0 then v * Pow10(e) as real else v / Pow10(-e) as real
  }

  /** A number without a sign: a mantissa and an optional exponent. */
  function ParseUnsigned(s: string): (r: Option<real>)
    ensures r.Some? ==> r.value >= 0.0
    ensures s != [] && AllDigits(s) ==> r == Some(DigitsValue(s) as real)
  {
    var e := FirstOf(s, 'e', 'E');
    assert AllDigits(s) ==> e == |s| && s[..e] == s;
    var mantissa := ParseMantissa(s[..e]);
    if e == |s| then
      mantissa
    else
      match (mantissa, ParseExponent(s[e + 1..]))
      case (Some(v), Some(x)) => Some(Scale(v, x))
      case _ => None
  }

  /**
   * strconv.ParseFloat on decimal text: an optional '+' or '-' and an unsigned
   * number; `None` stands for the error it returns on anything else.
   */
  function ParseFloat(s: string): (r: Option<real>)
    ensures s == [] ==> r.None?
    ensures s != [] && AllDigits(s) ==> r == Some(DigitsValue(s) as real)
    ensures r.Some? && r.value < 0.0 ==> s[0] == '-'
  {
    if |s| > 0 && (s[0] == '+' || s[0] == '-') then
      match ParseUnsigned(s[1..])
      case Some(v) => Some(if s[0] == '-' then -v else v)
      case None => None
    else
      ParseUnsigned(s)
  }

  /**
   * validateNumber: the parsed value, or the sentinel -1 when the text does not
   * parse, so that a malformed or missing number fails every positivity check.
   */
  function ValidateNumber(s: string): (v: real)
    ensures ParseFloat(s).Some? ==> v == ParseFloat(s).value
    ensures ParseFloat(s).None? ==> v == -1.0
  {
    match ParseFloat(s)
    case Some(x) => x
    case None => -1.0
  }

  function DigitChar(d: nat): (c: char)
    requires d < 10
  {
    ('0' as int + d) as char
  }

  /** The decimal text of a natural number, without leading zeros. */
  function NatToDecimal(n: nat): string {
    if n < 10 then [DigitChar(n)] else NatToDecimal(n / 10) + [DigitChar(n % 10)]
  }

  lemma {:induction false} NatToDecimalDigits(n: nat)
    ensures NatToDecimal(n) != [] && AllDigits(NatToDecimal(n))
    ensures DigitsValue(NatToDecimal(n)) == n
  {
    var s := NatToDecimal(n);
    if n >= 10 {
      NatToDecimalDigits(n / 10);
      assert s[..|s| - 1] == NatToDecimal(n / 10);
    }
  }

  /** Parsing reads back what the decimal text of a whole number says, with either sign. */
  lemma ParseDecimalRoundTrip(n: nat)
    ensures ParseFloat(NatToDecimal(n)) == Some(n as real)
    ensures ParseFloat("-" + NatToDecimal(n)) == Some(-(n as real))
  {
    NatToDecimalDigits(n);
    var s := NatToDecimal(n);
    assert ("-" + s)[1..] == s;
  }
}
