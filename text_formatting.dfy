/** The text helpers of the formatting utilities: truncation with an
    ellipsis, capitalisation, and the sign in front of a transaction amount.
    Locale-aware number formatting is a parameter. */
module TextFormatting {

  /** Where `slice(0, end)` stops on a string of length `len`: a negative end
      counts back from the end of the string. */
  function SliceEnd(len: nat, end: int): (k: nat)
    ensures k <= len
    ensures 0 <= end ==> k == if end < len then end else len
    ensures end < 0 ==> k == if len + end > 0 then len + end else 0
  {
    if end < 0 then (if len + end > 0 then len + end else 0)
    else if end < len then end else len
  }

  /** `truncateText` */
  function TruncateText(text: string, maxLength: int): (r: string)
    ensures |text| <= maxLength ==> r == text
    ensures 0 <= maxLength < |text| ==>
      |r| == maxLength + 3 && r[..maxLength] == text[..maxLength] && r[maxLength..] == "..."
    ensures maxLength < 0 ==> |r| >= 3 && r[|r| - 3..] == "..." && r[..|r| - 3] == text[..SliceEnd(|text|, maxLength)]
  {
    if |text| <= maxLength then text else text[..SliceEnd(|text|, maxLength)] + "..."
  }

  /** Truncating twice to the same length changes nothing more: a text that
      was cut keeps its first `maxLength` characters and its ellipsis. */
  lemma TruncateIdempotent(text: string, maxLength: nat)
    ensures TruncateText(TruncateText(text, maxLength), maxLength) == TruncateText(text, maxLength)
  {
    var r := TruncateText(text, maxLength);
    if |text| > maxLength {
      assert r[..maxLength] == text[..maxLength];
      assert TruncateText(r, maxLength) == r[..maxLength] + "...";
    }
  }

  /** A text that fits comes back whole; a cut one is exactly `maxLength`
      plus the ellipsis long. Either way the result starts with the text's
      first characters. */
  lemma TruncatedPrefix(text: string, maxLength: nat)
    ensures var r := TruncateText(text, maxLength);
      var kept := if |text| <= maxLength then |text| else maxLength;
      && |r| <= (if |text| <= maxLength then |text| else maxLength + 3)
      && r[..kept] == text[..kept]
  {
  }

  /** `toUpperCase` of one character, on the ASCII letters. */
  function UpperChar(c: char): (u: char)
    ensures 'a' <= c <= 'z' ==> 'A' <= u <= 'Z' && u as int == c as int - 32
    ensures !('a' <= c <= 'z') ==> u == c
  {
    if 'a' <= c <= 'z' then (c as int - 32) as char else c
  }

  /** `toLowerCase` of one character, on the ASCII letters. */
  function LowerChar(c: char): (l: char)
    ensures 'A' <= c <= 'Z' ==> 'a' <= l <= 'z' && l as int == c as int + 32
    ensures !('A' <= c <= 'Z') ==> l == c
  {
    if 'A' <= c <= 'Z' then (c as int + 32) as char else c
  }

  /** `toLowerCase` of a string: every character lowered in place. */
  function LowerAll(s: string): (r: string)
    ensures |r| == |s|
    ensures forall i :: 0 <= i < |s| ==> r[i] == LowerChar(s[i])
  {
    if |s| == 0 then [] else [LowerChar(s[0])] + LowerAll(s[1..])
  }

  /** `capitalizeFirst` */
  function CapitalizeFirst(text: string): (r: string)
    ensures |r| == |text|
    ensures |text| > 0 ==> r[0] == UpperChar(text[0])
    ensures forall i :: 1 <= i < |text| ==> r[i] == LowerChar(text[i])
  {
    if text == "" then text else [UpperChar(text[0])] + LowerAll(text[1..])
  }

  /** A capitalised text starts with no lower-case letter and has no
      upper-case letter after its first character. */
  lemma CapitalizedShape(text: string)
    ensures var r := CapitalizeFirst(text);
      && (|r| > 0 ==> !('a' <= r[0] <= 'z'))
      && forall i :: 1 <= i < |r| ==> !('A' <= r[i] <= 'Z')
  {
  }

  /** Capitalising an already capitalised text changes nothing. */
  lemma CapitalizeIdempotent(text: string)
    ensures CapitalizeFirst(CapitalizeFirst(text)) == CapitalizeFirst(text)
  {
    var r := CapitalizeFirst(text);
    var rr := CapitalizeFirst(r);
    assert |rr| == |r|;
    forall i | 0 <= i < |r|
      ensures rr[i] == r[i]
    {
      if i == 0 {
        assert UpperChar(UpperChar(text[0])) == UpperChar(text[0]);
      } else {
        assert LowerChar(LowerChar(text[i])) == LowerChar(text[i]);
      }
    }
  }

  /** `formatTransactionValue`: "+" for income and "-" otherwise, followed by
      `formatAmount` of the size of the value (the locale's currency format,
      which is not part of this model). */
  function FormatTransactionValue(value: real, isPositive: bool, formatAmount: real -> string): (r: string)
    ensures |r| >= 1 && (r[0] == '+' <==> isPositive) && (r[0] == '-' <==> !isPositive)
    ensures r[1..] == formatAmount(if value < 0.0 then -value else value)
  {
    var sign := if isPositive then "+" else "-";
    sign + formatAmount(if value < 0.0 then -value else value)
  }

  /** The sign shown comes from `isPositive` alone: an amount and its
      negation show the same. */
  lemma SignComesFromFlag(value: real, isPositive: bool, formatAmount: real -> string)
    ensures FormatTransactionValue(value, isPositive, formatAmount)
         == FormatTransactionValue(-value, isPositive, formatAmount)
  {
    if value < 0.0 {
      assert -(-value) == value;
    }
  }
}
