/**
 * Display formatting used by the dashboard: currency amounts (formatCurrency)
 * and the decimal digits of natural numbers, which the profit-margin text is
 * built from.
 */
module Format {

  /**
   * A JavaScript number as the formatter receives it. Amounts are whole
   * so'm; `NaN` is what `undefined` becomes when it is handed to
   * Intl.NumberFormat.format.
   */
  datatype JsNumber = Num(n: int) | NaN

  /**
   * The digit grouping of Intl.NumberFormat("uz-UZ"). It belongs to the host's
   * locale library, so the model takes it as a parameter and assumes nothing
   * about it.
   */
  type Grouping = JsNumber -> string

  /** The currency unit appended to every amount. */
  const CurrencySuffix: string := " so'm"

  /** formatCurrency: the grouped amount followed by the currency unit. */
  function FormatCurrency(g: Grouping, amount: JsNumber): (r: string)
    ensures |r| == |g(amount)| + |CurrencySuffix|
    ensures r[..|g(amount)|] == g(amount)
    ensures r[|g(amount)|..] == CurrencySuffix
  {
    g(amount) + CurrencySuffix
  }

  /** Two amounts format alike exactly when the locale groups them alike. */
  lemma FormatCurrencyInjective(g: Grouping, a: JsNumber, b: JsNumber)
    ensures FormatCurrency(g, a) == FormatCurrency(g, b) <==> g(a) == g(b)
  {
  }

  predicate IsDigit(c: char) {
    '0' <= c <= '9'
  }

  predicate IsDigits(s: string) {
    forall i :: 0 <= i < |s| ==> IsDigit(s[i])
  }

  function DigitChar(d: nat): (c: char)
    requires d < 10
    ensures IsDigit(c) && c as int - '0' as int == d
  {
    ('0' as int + d) as char
  }

  function DigitValue(c: char): (d: nat)
    requires IsDigit(c)
    ensures d < 10 && DigitChar(d) == c
  {
    c as int - '0' as int
  }

  /** The decimal digits of n, most significant first, without leading zeros. */
  function NatText(n: nat): (s: string)
    ensures |s| > 0 && IsDigits(s)
    ensures |s| > 1 ==> s[0] != '0'
    decreases n
  {
    if n < 10 then [DigitChar(n)] else NatText(n / 10) + [DigitChar(n % 10)]
  }

  /** The number a string of decimal digits denotes. */
  function ParseNat(s: string): nat
    requires IsDigits(s)
    decreases |s|
  {
    if s == [] then 0 else 10 * ParseNat(s[..|s| - 1]) + DigitValue(s[|s| - 1])
  }

  /** NatText loses nothing: its digits read back as the number. */
  lemma {:induction false} ParseNatText(n: nat)
    ensures ParseNat(NatText(n)) == n
    decreases n
  {
    var s := NatText(n);
    if n >= 10 {
      assert s[..|s| - 1] == NatText(n / 10);
      ParseNatText(n / 10);
    }
  }
}
