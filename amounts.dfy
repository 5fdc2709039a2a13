/**
 * The amount field of the add and edit forms: the text must match
 * `^\d+(\.\d{1,2})?$` and be at least 0.01. Accepted text is read as an
 * exact number of cents instead of a JavaScript float.
 */
module Amounts {

  import opened Wrappers
  import opened Chars

  predicate AllDigits(s: string) {
    forall i :: 0 <= i < |s| ==> IsDigit(s[i])
  }

  /** The language of the pattern, phrase by phrase: digits, then optionally a point and one or two digits. */
  ghost predicate InAmountLanguage(s: string) {
    (|s| >= 1 && AllDigits(s))
    || exists k :: 0 < k < |s| && s[k] == '.' && AllDigits(s[..k]) && AllDigits(s[k + 1..]) && 1 <= |s| - (k + 1) <= 2
  }

  /** The length of the longest all-digit prefix. */
  function LeadingDigits(s: string): (n: nat)
    ensures n <= |s|
    ensures AllDigits(s[..n])
    ensures n < |s| ==> !IsDigit(s[n])
  {
    if |s| == 0 || !IsDigit(s[0]) then 0
    else
      var m := LeadingDigits(s[1..]);
      assert s[..1 + m] == [s[0]] + s[1..][..m];
      1 + m
  }

  /** The recogniser: scan the integer digits, then accept the end or a point with one or two digits. */
  predicate IsAmountText(s: string) {
    var n := LeadingDigits(s);
    n >= 1 && (n == |s| || (s[n] == '.' && 2 <= |s| - n <= 3 && AllDigits(s[n + 1..])))
  }

  /** The recogniser accepts exactly the pattern's language. */
  lemma {:induction false} AmountRecogniserCorrect(s: string)
    ensures IsAmountText(s) <==> InAmountLanguage(s)
  {
    var n := LeadingDigits(s);
    if InAmountLanguage(s) && !(|s| >= 1 && AllDigits(s)) {
      var k :| 0 < k < |s| && s[k] == '.' && AllDigits(s[..k]) && AllDigits(s[k + 1..]) && 1 <= |s| - (k + 1) <= 2;
      assert n == k;
    } else if |s| >= 1 && AllDigits(s) {
      assert n == |s|;
    }
    if IsAmountText(s) && n < |s| {
      assert s[..n] == s[..n];
    }
  }

  /** The value of a string of digits, most significant first. */
  function DigitsValue(s: string): nat
    requires AllDigits(s)
    decreases |s|
  {
    if |s| == 0 then 0 else DigitsValue(s[..|s| - 1]) * 10 + DigitValue(s[|s| - 1])
  }

  /** The number of cents an accepted amount stands for: `"25.5"` and `"25.50"` are both 2550. */
  function ParseCents(s: string): nat
    requires IsAmountText(s)
  {
    var n := LeadingDigits(s);
    var whole := DigitsValue(s[..n]) * 100;
    if n == |s| then whole
    else if |s| - n == 2 then whole + 10 * DigitValue(s[n + 1])
    else whole + 10 * DigitValue(s[n + 1]) + DigitValue(s[n + 2])
  }

  /** The decimal digits of a number, without leading zeros. */
  function NatText(v: nat): (s: string)
    ensures |s| >= 1 && AllDigits(s)
    decreases v
  {
    if v < 10 then [DigitChar(v)] else NatText(v / 10) + [DigitChar(v % 10)]
  }

  lemma {:induction false} NatTextValue(v: nat)
    ensures DigitsValue(NatText(v)) == v
    decreases v
  {
    if v >= 10 {
      var s := NatText(v);
      assert s[..|s| - 1] == NatText(v / 10);
      NatTextValue(v / 10);
    }
  }

  /** A number of cents written with two decimals, as the pattern accepts it: 2550 is `"25.50"`. */
  function CentsText(cents: nat): string {
    NatText(cents / 100) + ['.', DigitChar((cents % 100) / 10), DigitChar(cents % 10)]
  }

  /** The digit scan stops exactly at the first character after an all-digit prefix. */
  lemma {:induction false} LeadingDigitsOfConcat(w: string, t: string)
    requires AllDigits(w) && |t| > 0 && !IsDigit(t[0])
    ensures LeadingDigits(w + t) == |w|
    decreases |w|
  {
    if |w| > 0 {
      assert (w + t)[1..] == w[1..] + t;
      LeadingDigitsOfConcat(w[1..], t);
    }
  }

  /** Writing cents and reading them back gives the same cents, and the text is in the language. */
  lemma {:induction false} CentsRoundTrip(cents: nat)
    ensures IsAmountText(CentsText(cents))
    ensures InAmountLanguage(CentsText(cents))
    ensures ParseCents(CentsText(cents)) == cents
  {
    var w := NatText(cents / 100);
    var t := ['.', DigitChar((cents % 100) / 10), DigitChar(cents % 10)];
    var s := CentsText(cents);
    assert s == w + t;
    LeadingDigitsOfConcat(w, t);
    assert s[..|w|] == w;
    assert s[|w| + 1..] == t[1..];
    NatTextValue(cents / 100);
    AmountRecogniserCorrect(s);
  }

  const AMOUNT_REQUIRED: string := "Amount is required"
  const AMOUNT_TOO_SMALL: string := "Amount must be greater than 0"
  const AMOUNT_INVALID: string := "Please enter a valid amount"

  /**
   * The amount rules: required, then the pattern, then the minimum 0.01 on
   * the parsed cents. The result is the amount in cents.
   */
  function ValidateAmount(s: string): (r: Result<nat, string>)
    ensures r.Success? <==> InAmountLanguage(s) && ParseCents(s) >= 1
    ensures r.Success? ==> r.value >= 1 && r.value == ParseCents(s)
    ensures r == Failure(AMOUNT_REQUIRED) <==> s == ""
    ensures r == Failure(AMOUNT_TOO_SMALL) <==> InAmountLanguage(s) && ParseCents(s) == 0
    ensures r == Failure(AMOUNT_INVALID) <==> s != "" && !InAmountLanguage(s)
  {
    AmountRecogniserCorrect(s);
    if s == "" then Failure(AMOUNT_REQUIRED)
    else if !IsAmountText(s) then Failure(AMOUNT_INVALID)
    else if ParseCents(s) < 1 then Failure(AMOUNT_TOO_SMALL)
    else Success(ParseCents(s))
  }

  /** Every positive number of cents written with two decimals is accepted as exactly that many cents. */
  lemma AcceptsEveryPositiveCents(cents: nat)
    requires cents >= 1
    ensures ValidateAmount(CentsText(cents)) == Success(cents)
  {
    CentsRoundTrip(cents);
  }

  /** `"25.50"` is 2550 cents; `"0"` and `"0.00"` are below the minimum; three decimals or a bare point fail the pattern. */
  lemma AmountExamples()
    ensures ValidateAmount("25.50") == Success(2550)
    ensures ValidateAmount("0") == Failure(AMOUNT_TOO_SMALL)
    ensures ValidateAmount("0.00") == Failure(AMOUNT_TOO_SMALL)
    ensures ValidateAmount("25.505") == Failure(AMOUNT_INVALID)
    ensures ValidateAmount(".5") == Failure(AMOUNT_INVALID)
  {
    assert LeadingDigits("25.50") == 2;
    assert "25.50"[..2] == "25" && "25"[..1] == "2";
    assert DigitsValue("25") == 25;
    assert ParseCents("25.50") == 2550;
    assert LeadingDigits("0.00") == 1;
  }
}
