/** The display formatters: whole-number amounts, percentages, the
    currency suffix and the signed transaction amount, with the placeholder
    for missing input. */
module Formatters {
  import opened Numbers

  /** `UI_CONFIG.DEFAULT_PLACEHOLDER` */
  const Placeholder := "--"

  /** `UI_CONFIG.CURRENCY` */
  const Currency := "PLN"

  /** A value handed to a formatter: `undefined`, `null`, text or a number. */
  datatype DisplayValue = Undefined | Null | Text(s: string) | Number(n: Num)

  /** `undefined`, `null` or the empty string. */
  predicate Missing(v: DisplayValue) {
    v.Undefined? || v.Null? || v == Text("")
  }

  /** The number a formatter reads from a present value: text goes through
      `parseFloat`. */
  function NumericValue(v: DisplayValue): Num
    requires v.Text? || v.Number?
  {
    if v.Text? then ParseFloat(v.s) else v.n
  }

  /** `Math.round(x).toString()`: the nearest whole number's text. */
  function WholeText(x: real): string {
    IntToString(Round(x))
  }

  /** The text of a rounded amount reads back as the nearest whole number,
      halves rounded up, and is never the placeholder. */
  lemma WholeTextReadsBack(x: real)
    ensures ParseFloat(WholeText(x)) == Finite(Round(x) as real)
    ensures x - 0.5 < Round(x) as real <= x + 0.5
    ensures WholeText(x) != Placeholder
  {
    var i := Round(x);
    ParseIntToString(i);
    var s := IntToString(i);
    if i < 0 {
      assert s[1] == NatToDecimal(-i)[0];
      assert IsDigit(s[1]);
    } else {
      assert IsDigit(s[0]);
    }
  }

  /** `formatCurrency`: the placeholder for a missing or NaN value, otherwise
      the value rounded to a whole number. */
  function FormatCurrency(v: DisplayValue): string {
    if Missing(v) then Placeholder
    else
      var x := NumericValue(v);
      if x.NaN? then Placeholder else WholeText(x.v)
  }

  /** `formatCurrency` shows the placeholder exactly for a missing or NaN
      value, and the rounded value otherwise. */
  lemma FormatCurrencyCases(v: DisplayValue)
    ensures FormatCurrency(v) == Placeholder <==> Missing(v) || NumericValue(v).NaN?
    ensures !Missing(v) && NumericValue(v).Finite? ==> FormatCurrency(v) == WholeText(NumericValue(v).v)
  {
    if !Missing(v) && NumericValue(v).Finite? {
      WholeTextReadsBack(NumericValue(v).v);
    }
  }

  /** `${Math.round(x * 100)}%` */
  function PercentText(x: real): string {
    IntToString(Round(x * 100.0)) + "%"
  }

  /** A fraction shows as its rounded whole percent, which reads back from
      the text. */
  lemma PercentTextReadsBack(x: real)
    ensures ParseFloat(PercentText(x)) == Finite(Round(x * 100.0) as real)
    ensures PercentText(x)[|PercentText(x)| - 1] == '%'
  {
    ParseIntThenText(Round(x * 100.0), "%");
  }

  /** `formatPercentage`: "0%" for a missing or NaN value, otherwise the
      fraction as a percentage. */
  function FormatPercentage(v: DisplayValue): string {
    if Missing(v) then "0%"
    else
      var x := NumericValue(v);
      if x.NaN? then "0%" else PercentText(x.v)
  }

  /** A missing or unreadable percentage shows as the percentage of 0. */
  lemma MissingPercentageIsZero(v: DisplayValue)
    requires Missing(v) || NumericValue(v).NaN?
    ensures FormatPercentage(v) == PercentText(0.0) == "0%"
  {
    assert Round(0.0 * 100.0) == 0;
    assert IntToString(0) == "0";
  }

  /** `formatWithCurrency`: the amount followed by a space and the currency. */
  function FormatWithCurrency(v: DisplayValue): (r: string)
    ensures |r| == |FormatCurrency(v)| + 4
    ensures r[..|FormatCurrency(v)|] == FormatCurrency(v) && r[|FormatCurrency(v)|..] == " PLN"
  {
    FormatCurrency(v) + " " + Currency
  }

  /** With the currency, the placeholder still shows exactly for a missing
      or NaN value, and any other value shows its rounded amount. */
  lemma FormatWithCurrencyCases(v: DisplayValue)
    ensures FormatWithCurrency(v) == Placeholder + " " + Currency <==> Missing(v) || NumericValue(v).NaN?
    ensures !Missing(v) && NumericValue(v).Finite? ==>
      FormatWithCurrency(v) == WholeText(NumericValue(v).v) + " " + Currency
  {
    FormatCurrencyCases(v);
    var f := FormatCurrency(v);
    if FormatWithCurrency(v) == Placeholder + " " + Currency {
      assert |f| == 2;
      assert f == FormatWithCurrency(v)[..2];
    }
  }

  /** What `formatTransactionDisplay` returns. */
  datatype TransactionDisplay = TransactionDisplay(displayValue: string, isExpense: bool)

  /** `formatTransactionDisplay`: a NaN amount shows what `formatCurrency`
      shows, any other amount its signed display. */
  function FormatTransactionDisplay(v: DisplayValue): (d: TransactionDisplay)
    requires v.Text? || v.Number?
  {
    var x := NumericValue(v);
    if x.NaN? then TransactionDisplay(FormatCurrency(v), false) else AmountDisplay(x.v)
  }

  /** An expense (a positive amount) shows with a minus sign and anything
      else with a plus, followed by the rounded size of the amount. */
  function AmountDisplay(x: real): TransactionDisplay {
    var isExpense := x > 0.0;
    var formatted := WholeText(Abs(x));
    TransactionDisplay(if isExpense then "-" + formatted else "+" + formatted, isExpense)
  }

  /** The display of a NaN amount is the placeholder and never an expense. */
  lemma UnreadableTransactionDisplay(v: DisplayValue)
    requires v.Text? || v.Number?
    requires NumericValue(v).NaN?
    ensures FormatTransactionDisplay(v) == TransactionDisplay(Placeholder, false)
  {
  }

  /** Otherwise `isExpense` holds exactly for positive amounts, and the
      display reads back as the rounded amount with its sign flipped. */
  lemma TransactionDisplayReadsBack(x: real)
    ensures var d := AmountDisplay(x);
      && (d.isExpense <==> x > 0.0)
      && (d.displayValue[0] == '-' <==> x > 0.0)
      && ParseFloat(d.displayValue) == Finite(if x > 0.0 then -(Round(Abs(x)) as real) else Round(Abs(x)) as real)
  {
    var n := Round(Abs(x));
    var digits := NatToDecimal(n);
    var s := AmountDisplay(x).displayValue;
    DecimalRoundTrip(n);
    assert s[1..] == digits;
    ParseSignThenDigits(s, digits);
  }
}
