/**
 * calculateProfitMargin and the text it puts on screen.
 *
 * The source divides as floating point and formats with toFixed(1); the model
 * works on exact integers, counting the margin in tenths of a percent.
 * toFixed takes the sign off first, rounds the magnitude to the nearest tenth
 * (a tie goes to the larger magnitude) and then puts a "-" back for a negative
 * quotient, even when the rounded magnitude is zero ("-0.0"). A zero revenue
 * short-circuits to the NUMBER 0, which renders as "0" rather than "0.0".
 */
module Margin {
  import opened Wrappers
  import opened Format

  /** The two results calculateProfitMargin can return. */
  datatype Margin =
    | ZeroNumber                            // the number 0 for a zero revenue
    | Fixed(negative: bool, tenths: nat)    // the toFixed(1) string, as sign and magnitude

  function Abs(x: int): nat {
    if x < 0 then -x else x
  }

  /** r is n / d rounded to the nearest integer, a tie rounding up. */
  ghost predicate IsRoundedQuotient(n: nat, d: nat, r: nat) {
    2 * d * r <= 2 * n + d < 2 * d * r + 2 * d
  }

  function RoundHalfUp(n: nat, d: nat): (r: nat)
    requires d > 0
    ensures IsRoundedQuotient(n, d, r)
  {
    var q := (2 * n + d) / (2 * d);
    assert (2 * d) * q <= 2 * n + d < (2 * d) * q + 2 * d;
    q
  }

  /**
   * calculateProfitMargin(revenue, profit): 0 when revenue is 0, otherwise
   * profit / revenue * 100 to one decimal.
   */
  function ProfitMargin(revenue: int, profit: int): (m: Margin)
    ensures m.ZeroNumber? <==> revenue == 0
    ensures m.Fixed? ==> (m.negative <==> profit != 0 && (profit < 0) != (revenue < 0))
    ensures m.Fixed? ==> IsRoundedQuotient(1000 * Abs(profit), Abs(revenue), m.tenths)
  {
    if revenue == 0 then ZeroNumber
    else Fixed(profit != 0 && (profit < 0) != (revenue < 0), RoundHalfUp(1000 * Abs(profit), Abs(revenue)))
  }

  /** How the margin prints: "0" for the number, "[-]<int>.<digit>" for the string. */
  function MarginText(m: Margin): (s: string)
    ensures m.ZeroNumber? ==> s == "0"
    ensures m.Fixed? ==> |s| >= 3 && s[|s| - 2] == '.' && IsDigit(s[|s| - 1])
    ensures m.Fixed? ==> (s[0] == '-' <==> m.negative)
  {
    match m
    case ZeroNumber => "0"
    case Fixed(negative, tenths) =>
      (if negative then "-" else "") + NatText(tenths / 10) + "." + [DigitChar(tenths % 10)]
  }

  /** The margin card and the period blocks print the margin followed by "%". */
  function PercentText(m: Margin): (s: string)
    ensures |s| > 0 && s[|s| - 1] == '%' && s[..|s| - 1] == MarginText(m)
  {
    MarginText(m) + "%"
  }

  /** Reads a margin back from its text; the inverse of MarginText. */
  function DecodeMargin(s: string): Option<Margin> {
    if s == "0" then Some(ZeroNumber)
    else
      var negative := |s| > 0 && s[0] == '-';
      var body := if negative then s[1..] else s;
      if |body| >= 3 && body[|body| - 2] == '.' && IsDigit(body[|body| - 1]) && IsDigits(body[..|body| - 2])
      then Some(Fixed(negative, 10 * ParseNat(body[..|body| - 2]) + DigitValue(body[|body| - 1])))
      else None
  }

  /** Every margin text reads back as the margin it was printed from. */
  lemma DecodeMarginText(m: Margin)
    ensures DecodeMargin(MarginText(m)) == Some(m)
  {
    if m.Fixed? {
      var whole := NatText(m.tenths / 10);
      var body := whole + "." + [DigitChar(m.tenths % 10)];
      var s := MarginText(m);
      assert s == (if m.negative then "-" else "") + body;
      assert s != "0";
      assert body[..|body| - 2] == whole;
      if m.negative {
        assert s[1..] == body;
      } else {
        assert s == body;
        assert body[0] == whole[0];
      }
      ParseNatText(m.tenths / 10);
    }
  }

  /** Distinct margins never print alike. */
  lemma MarginTextInjective(m1: Margin, m2: Margin)
    requires MarginText(m1) == MarginText(m2)
    ensures m1 == m2
  {
    DecodeMarginText(m1);
    DecodeMarginText(m2);
  }

  /** Distinct margins never print alike as percentages either. */
  lemma PercentTextInjective(m1: Margin, m2: Margin)
    ensures PercentText(m1) == PercentText(m2) <==> m1 == m2
  {
    if PercentText(m1) == PercentText(m2) {
      MarginTextInjective(m1, m2);
    }
  }

  /** A zero revenue yields the number 0 whatever the profit, printed "0%". */
  lemma ZeroRevenueMargin(profit: int)
    ensures ProfitMargin(0, profit) == ZeroNumber
    ensures PercentText(ProfitMargin(0, profit)) == "0%"
  {
  }

  /** A zero profit over a non-zero revenue prints "0.0%", not the "0%" of a zero revenue. */
  lemma ZeroProfitMargin(revenue: int)
    requires revenue != 0
    ensures PercentText(ProfitMargin(revenue, 0)) == "0.0%"
    ensures PercentText(ProfitMargin(revenue, 0)) != PercentText(ProfitMargin(0, 0))
  {
    RoundedQuotientUnique(0, Abs(revenue), ProfitMargin(revenue, 0).tenths, 0);
    assert ProfitMargin(revenue, 0) == Fixed(false, 0);
  }

  /**
   * A loss of less than a twentieth of a percent of the revenue rounds to
   * zero tenths yet still carries toFixed's minus sign: it prints "-0.0%".
   */
  lemma NegativeZeroMargin(revenue: int, profit: int)
    requires revenue != 0 && profit != 0 && (profit < 0) != (revenue < 0)
    requires 2000 * Abs(profit) < Abs(revenue)
    ensures PercentText(ProfitMargin(revenue, profit)) == "-0.0%"
  {
    RoundedQuotientUnique(1000 * Abs(profit), Abs(revenue), ProfitMargin(revenue, profit).tenths, 0);
  }

  /** The sign toFixed prints is the sign of the quotient profit / revenue. */
  lemma MarginSign(revenue: int, profit: int)
    requires revenue != 0
    ensures ProfitMargin(revenue, profit).negative <==> profit * revenue < 0
  {
    AbsMul(profit, revenue);
    if profit != 0 {
      MulMono(Abs(profit), 1, Abs(revenue));
    }
  }

  /** (1000, 150) gives "15.0", (1000000, 250000) gives "25.0" and (10000, -1) gives "-0.0". */
  lemma ExampleMargins()
    ensures MarginText(ProfitMargin(1000, 150)) == "15.0"
    ensures MarginText(ProfitMargin(1000000, 250000)) == "25.0"
    ensures PercentText(ProfitMargin(10000, -1)) == "-0.0%"
  {
    NegativeZeroMargin(10000, -1);
    var a := ProfitMargin(1000, 150);
    assert a == Fixed(false, 150) by {
      assert IsRoundedQuotient(150000, 1000, a.tenths);
    }
    assert NatText(15) == "15";
    var b := ProfitMargin(1000000, 250000);
    assert b == Fixed(false, 250) by {
      assert IsRoundedQuotient(250000000, 1000000, b.tenths);
    }
    assert NatText(25) == "25";
  }

  /** Scaling revenue and profit by the same non-zero factor leaves the margin unchanged. */
  lemma MarginScaleInvariant(revenue: int, profit: int, k: int)
    requires k != 0
    ensures ProfitMargin(k * revenue, k * profit) == ProfitMargin(revenue, profit)
  {
    if revenue != 0 {
      var a := ProfitMargin(revenue, profit);
      var b := ProfitMargin(k * revenue, k * profit);
      var n, d := 1000 * Abs(profit), Abs(revenue);
      AbsMul(k, revenue);
      AbsMul(k, profit);
      assert 1000 * Abs(k * profit) == Abs(k) * n;
      ScaledQuotient(n, d, Abs(k), b.tenths);
      RoundedQuotientUnique(n, d, a.tenths, b.tenths);
    }
  }

  lemma AbsMul(x: int, y: int)
    ensures Abs(x * y) == Abs(x) * Abs(y)
  {
  }

  /** A rounded quotient is determined by n and d. */
  lemma RoundedQuotientUnique(n: nat, d: nat, r1: nat, r2: nat)
    requires d > 0
    requires IsRoundedQuotient(n, d, r1) && IsRoundedQuotient(n, d, r2)
    ensures r1 == r2
  {
    if r1 < r2 {
      MulMono(2 * d, r1 + 1, r2);
    } else if r2 < r1 {
      MulMono(2 * d, r2 + 1, r1);
    }
  }

  /** Rounding n / d is the same as rounding (k * n) / (k * d). */
  lemma ScaledQuotient(n: nat, d: nat, k: nat, r: nat)
    requires d > 0 && k > 0
    requires IsRoundedQuotient(k * n, k * d, r)
    ensures IsRoundedQuotient(n, d, r)
  {
  }

  lemma MulMono(a: nat, x: nat, y: nat)
    requires x <= y
    ensures a * x <= a * y
  {
  }
}
