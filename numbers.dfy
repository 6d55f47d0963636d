/** JavaScript numbers as the helpers use them: a value that may be NaN,
    `Math.round`, `x || 0`, decimal text of whole numbers, and the part of
    `parseFloat` that reads an optionally signed decimal with a fraction. */
module Numbers {
  import opened JsStrings

  /** A JavaScript number: a finite value (read exactly) or NaN. */
  datatype Num = Finite(v: real) | NaN

  /** `n || 0`: NaN (and 0) become 0, any other value passes through. */
  function OrZero(n: Num): (r: real)
    ensures n.NaN? ==> r == 0.0
    ensures n.Finite? ==> r == n.v
  {
    match n
    case NaN => 0.0
    case Finite(v) => v
  }

  function Abs(x: real): (r: real)
    ensures r >= 0.0 && (r == x || r == -x)
  {
    if x < 0.0 then -x else x
  }

  /** `Math.round`: the nearest integer, halves rounded towards +infinity. */
  function Round(x: real): (r: int)
    ensures x - 0.5 < r as real <= x + 0.5
    ensures x >= 0.0 ==> r >= 0
  {
    (x + 0.5).Floor
  }

  predicate IsDigit(c: char) {
    '0' <= c <= '9'
  }

  predicate AllDigits(s: string) {
    forall i :: 0 <= i < |s| ==> IsDigit(s[i])
  }

  function DigitChar(d: nat): (c: char)
    requires d < 10
    ensures IsDigit(c) && DigitValue(c) == d
  {
    ('0' as int + d) as char
  }

  function DigitValue(c: char): nat
    requires IsDigit(c)
  {
    c as int - '0' as int
  }

  /** Decimal text of a whole number, most significant digit first, no
      leading zeros (what `toString` gives for a safe integer). */
  function NatToDecimal(n: nat): (s: string)
    ensures |s| >= 1 && AllDigits(s)
    decreases n
  {
    if n < 10 then [DigitChar(n)] else NatToDecimal(n / 10) + [DigitChar(n % 10)]
  }

  /** The value of a string of decimal digits ("" reads as 0). */
  function DecimalValue(s: string): nat
    requires AllDigits(s)
  {
    if |s| == 0 then 0 else DecimalValue(s[..|s| - 1]) * 10 + DigitValue(s[|s| - 1])
  }

  lemma {:induction false} DecimalRoundTrip(n: nat)
    ensures DecimalValue(NatToDecimal(n)) == n
    decreases n
  {
    var s := NatToDecimal(n);
    if n >= 10 {
      DecimalRoundTrip(n / 10);
      assert s[..|s| - 1] == NatToDecimal(n / 10);
    }
  }

  /** A four-digit number prints as exactly four digits. */
  lemma FourDigits(n: nat)
    requires 1000 <= n <= 9999
    ensures |NatToDecimal(n)| == 4
  {
    var a, b, c := n / 10, n / 10 / 10, n / 10 / 10 / 10;
    assert 100 <= a <= 999 && 10 <= b <= 99 && 1 <= c <= 9;
    assert |NatToDecimal(c)| == 1;
    assert |NatToDecimal(b)| == |NatToDecimal(c)| + 1;
    assert |NatToDecimal(a)| == |NatToDecimal(b)| + 1;
    assert |NatToDecimal(n)| == |NatToDecimal(a)| + 1;
  }

  /** `i.toString()` for an integer. */
  function IntToString(i: int): (s: string)
    ensures |s| >= 1
  {
    if i < 0 then "-" + NatToDecimal(-i) else NatToDecimal(i)
  }

  /** The number of leading decimal digits of `s`. */
  function LeadingDigits(s: string): (k: nat)
    ensures k <= |s| && AllDigits(s[..k])
    ensures k < |s| ==> !IsDigit(s[k])
  {
    if |s| > 0 && IsDigit(s[0]) then
      var k := 1 + LeadingDigits(s[1..]);
      assert s[..k] == [s[0]] + s[1..][..k - 1];
      k
    else 0
  }

  lemma LeadingDigitsOfDigits(s: string)
    requires AllDigits(s)
    ensures LeadingDigits(s) == |s|
  {
  }

  function Pow10(k: nat): (p: nat)
    ensures p >= 1
  {
    if k == 0 then 1 else 10 * Pow10(k - 1)
  }

  /** The number of fraction digits read from `rest`, the text after the
      whole digits: those after a leading `.`, if any. */
  function FractionDigits(rest: string): (fk: nat)
    ensures fk <= |rest|
    ensures rest == [] || rest[0] != '.' ==> fk == 0
  {
    if |rest| > 0 && rest[0] == '.' then LeadingDigits(rest[1..]) else 0
  }

  /** The value of the fraction read from `rest`. */
  function FractionValue(rest: string): (f: real)
    ensures FractionDigits(rest) == 0 ==> f == 0.0
  {
    var fk := FractionDigits(rest);
    if fk > 0 then DecimalValue(rest[1..][..fk]) as real / Pow10(fk) as real else 0.0
  }

  /** The longest prefix of `u` of the form digits, optionally followed by
      `.` and fraction digits, read as a value; NaN when it holds no digit. */
  function UnsignedPrefix(u: string): Num {
    var k := LeadingDigits(u);
    if k == 0 && FractionDigits(u[k..]) == 0 then NaN
    else Finite(DecimalValue(u[..k]) as real + FractionValue(u[k..]))
  }

  function Negate(n: Num): Num {
    match n
    case NaN => NaN
    case Finite(v) => Finite(-v)
  }

  /** `parseFloat(s)`: leading white space is skipped, then an optional sign,
      whole digits and an optional `.` with fraction digits are read as far as
      they go; with no digit at all the result is NaN. */
  function ParseFloat(s: string): Num {
    var t := TrimStart(s);
    if |t| > 0 && t[0] == '-' then Negate(UnsignedPrefix(t[1..]))
    else if |t| > 0 && t[0] == '+' then UnsignedPrefix(t[1..])
    else UnsignedPrefix(t)
  }

  lemma UnsignedPrefixOfDigits(d: string)
    requires |d| >= 1 && AllDigits(d)
    ensures UnsignedPrefix(d) == Finite(DecimalValue(d) as real)
  {
    LeadingDigitsOfDigits(d);
    assert d[..|d|] == d;
    assert |d[|d|..]| == 0;
    assert DecimalValue("") == 0;
  }

  /** `parseFloat` of a text starting with a digit reads it unsigned. */
  lemma ParseFloatOfDigitStart(t: string)
    requires |t| > 0 && IsDigit(t[0])
    ensures ParseFloat(t) == UnsignedPrefix(t)
  {
    assert !IsWhitespace(t[0]);
    assert TrimStart(t) == t;
  }

  /** `parseFloat` of a text starting with a sign reads the rest unsigned. */
  lemma ParseFloatOfSignStart(t: string)
    requires |t| > 0 && (t[0] == '-' || t[0] == '+')
    ensures ParseFloat(t) == if t[0] == '-' then Negate(UnsignedPrefix(t[1..])) else UnsignedPrefix(t[1..])
  {
    assert TrimStart(t) == t;
  }

  /** A sign followed by decimal digits reads as the signed value of the
      digits. */
  lemma ParseSignThenDigits(s: string, d: string)
    requires |d| >= 1 && AllDigits(d)
    requires |s| > 0 && (s[0] == '-' || s[0] == '+') && s[1..] == d
    ensures ParseFloat(s) == Finite(if s[0] == '-' then -(DecimalValue(d) as real) else DecimalValue(d) as real)
  {
    ParseFloatOfSignStart(s);
    UnsignedPrefixOfDigits(d);
  }

  /** `parseFloat(String(i)) === i` for every integer. */
  lemma ParseIntToString(i: int)
    ensures ParseFloat(IntToString(i)) == Finite(i as real)
  {
    var s := IntToString(i);
    if i < 0 {
      var d := NatToDecimal(-i);
      assert s[1..] == d;
      ParseSignThenDigits(s, d);
      DecimalRoundTrip(-i);
    } else {
      ParseFloatOfDigitStart(s);
      UnsignedPrefixOfDigits(s);
      DecimalRoundTrip(i);
    }
  }

  /** A text without any decimal digit has no unsigned prefix to read. */
  lemma UnsignedPrefixWithoutDigits(u: string)
    requires forall i :: 0 <= i < |u| ==> !IsDigit(u[i])
    ensures UnsignedPrefix(u) == NaN
  {
    assert LeadingDigits(u) == 0;
    assert u[0..] == u;
    if |u| > 1 {
      assert u[1..][0] == u[1];
    }
  }

  /** A string without any decimal digit parses as NaN. */
  lemma ParseWithoutDigits(s: string)
    requires forall i :: 0 <= i < |s| ==> !IsDigit(s[i])
    ensures ParseFloat(s) == NaN
  {
    var t := TrimStart(s);
    assert forall i :: 0 <= i < |t| ==> !IsDigit(t[i]) by {
      forall i | 0 <= i < |t| ensures !IsDigit(t[i]) {
        assert t[i] == s[|s| - |t| + i];
      }
    }
    if |t| > 0 && (t[0] == '-' || t[0] == '+') {
      var u := t[1..];
      assert forall i :: 0 <= i < |u| ==> !IsDigit(u[i]) by {
        forall i | 0 <= i < |u| ensures !IsDigit(u[i]) {
          assert u[i] == t[i + 1];
        }
      }
      UnsignedPrefixWithoutDigits(u);
    } else {
      UnsignedPrefixWithoutDigits(t);
    }
  }

  lemma {:induction false} LeadingDigitsThen(d: string, rest: string)
    requires AllDigits(d)
    requires rest == [] || !IsDigit(rest[0])
    ensures LeadingDigits(d + rest) == |d|
    decreases |d|
  {
    if |d| > 0 {
      assert (d + rest)[1..] == d[1..] + rest;
      LeadingDigitsThen(d[1..], rest);
    }
  }

  /** With no `.` after the whole digits, the unsigned prefix is the value of
      those digits. */
  lemma UnsignedPrefixNoFraction(u: string)
    requires LeadingDigits(u) > 0
    requires LeadingDigits(u) == |u| || u[LeadingDigits(u)] != '.'
    ensures UnsignedPrefix(u) == Finite(DecimalValue(u[..LeadingDigits(u)]) as real)
  {
    assert DecimalValue("") == 0;
  }

  /** Digits followed by text that neither continues the number nor starts a
      fraction read as those digits alone. */
  lemma UnsignedPrefixThen(d: string, rest: string)
    requires |d| >= 1 && AllDigits(d)
    requires |rest| > 0 && !IsDigit(rest[0]) && rest[0] != '.'
    ensures UnsignedPrefix(d + rest) == Finite(DecimalValue(d) as real)
  {
    var u := d + rest;
    LeadingDigitsThen(d, rest);
    assert u[..|d|] == d;
    UnsignedPrefixNoFraction(u);
  }

  /** `parseFloat` of an integer's text followed by words (`"3 dni temu"`)
      reads the integer back. */
  lemma ParseIntThenText(i: int, rest: string)
    requires |rest| > 0 && !IsDigit(rest[0]) && rest[0] != '.'
    ensures ParseFloat(IntToString(i) + rest) == Finite(i as real)
  {
    var s := IntToString(i) + rest;
    if i < 0 {
      var d := NatToDecimal(-i);
      assert s[0] == '-' && s[1..] == d + rest;
      NegativeThenText(s, d, rest);
      DecimalRoundTrip(-i);
    } else {
      var d := NatToDecimal(i);
      assert s == d + rest;
      DigitsThenText(s, d, rest);
      DecimalRoundTrip(i);
    }
  }

  lemma NegativeThenText(s: string, d: string, rest: string)
    requires |d| >= 1 && AllDigits(d)
    requires |rest| > 0 && !IsDigit(rest[0]) && rest[0] != '.'
    requires |s| > 0 && s[0] == '-' && s[1..] == d + rest
    ensures ParseFloat(s) == Finite(-(DecimalValue(d) as real))
  {
    ParseFloatOfSignStart(s);
    UnsignedPrefixThen(d, rest);
  }

  lemma DigitsThenText(s: string, d: string, rest: string)
    requires |d| >= 1 && AllDigits(d)
    requires |rest| > 0 && !IsDigit(rest[0]) && rest[0] != '.'
    requires s == d + rest
    ensures ParseFloat(s) == Finite(DecimalValue(d) as real)
  {
    ParseFloatOfDigitStart(s);
    UnsignedPrefixThen(d, rest);
  }
}
