/**
 * The text a JavaScript template literal such as `Month ${n}` produces for the
 * numbers the pipeline renders: small integers (months) and NaN (the month of
 * a date that did not parse).
 */
module NumberText {

  /** A JavaScript number that is either NaN or an integer. */
  datatype IntNumber = NaN | Int(value: int)

  predicate IsDigit(c: char) {
    '0' <= c <= '9'
  }

  predicate AllDigits(s: string) {
    forall i :: 0 <= i < |s| ==> IsDigit(s[i])
  }

  function DigitChar(d: nat): (c: char)
    requires d < 10
    ensures IsDigit(c) && DigitValue(c) == d
  {
    ('0' as int + d) as char
  }

  function DigitValue(c: char): nat
    requires IsDigit(c)
  {
    c as int - '0' as int
  }

  /** Decimal digits of n, most significant first, without leading zeros. */
  function NatText(n: nat): (s: string)
    ensures |s| >= 1 && AllDigits(s)
    ensures n < 10 <==> |s| == 1
    ensures n > 0 ==> s[0] != '0'
  {
    if n < 10 then [DigitChar(n)] else NatText(n / 10) + [DigitChar(n % 10)]
  }

  /** The value of a string of decimal digits; the inverse of NatText. */
  function DecimalValue(s: string): nat
    requires AllDigits(s)
  {
    if s == [] then 0 else 10 * DecimalValue(s[..|s| - 1]) + DigitValue(s[|s| - 1])
  }

  lemma {:induction false} DecimalValueOfNatText(n: nat)
    ensures DecimalValue(NatText(n)) == n
  {
    if n >= 10 {
      var s := NatText(n / 10);
      DecimalValueOfNatText(n / 10);
      assert (s + [DigitChar(n % 10)])[..|s|] == s;
    }
  }

  /** `String(x)` for an integer or NaN. */
  function NumberToString(x: IntNumber): (s: string)
    ensures s == "NaN" <==> x.NaN?
    ensures x.Int? && x.value >= 0 ==> s == NatText(x.value)
    ensures x.Int? && x.value < 0 ==> s == "-" + NatText(-x.value)
  {
    match x
    case NaN => "NaN"
    case Int(n) =>
      var s := if n < 0 then "-" + NatText(-n) else NatText(n);
      assert s[0] != 'N';
      s
  }

  /** Different numbers print differently, so a label determines its number. */
  lemma NumberToStringInjective(x: IntNumber, y: IntNumber)
    requires NumberToString(x) == NumberToString(y)
    ensures x == y
  {
    match x
    case NaN =>
    case Int(m) =>
      match y
      case NaN =>
      case Int(n) =>
        var s := NumberToString(x);
        if m < 0 {
          assert s[0] == '-' && (n >= 0 ==> IsDigit(s[0]));
          assert s[1..] == NatText(-m) == NatText(-n);
          DecimalValueOfNatText(-m);
          DecimalValueOfNatText(-n);
        } else {
          assert IsDigit(s[0]);
          DecimalValueOfNatText(m);
          DecimalValueOfNatText(n);
        }
  }
}
