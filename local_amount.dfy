/**
 * Money amounts in the local (Argentine) notation used by chat messages:
 * `.` groups thousands and `,` separates the decimals, so `1.234,56` is
 * 1234.56. The intake code normalises the text (every `.` removed, the first
 * `,` turned into `.`) and hands it to `parseFloat`; both steps are modelled
 * exactly, with the value as an exact decimal instead of a double.
 */
module LocalAmount {
  import opened Wrappers
  import opened Text

  /** The characters of the `[\d.,]` class. */
  predicate IsAmountChar(c: char) {
    IsDigit(c) || c == '.' || c == ','
  }

  predicate AllAmountChars(s: string) {
    forall k :: 0 <= k < |s| ==> IsAmountChar(s[k])
  }

  predicate AllDigits(s: string) {
    forall k :: 0 <= k < |s| ==> IsDigit(s[k])
  }

  function DigitValue(c: char): nat
    requires IsDigit(c)
  {
    c as int - '0' as int
  }

  /** The number written by a string of decimal digits (0 for the empty string). */
  function DigitsValue(d: string): nat
    requires AllDigits(d)
    decreases |d|
  {
    if d == [] then 0 else DigitsValue(d[..|d| - 1]) * 10 + DigitValue(d[|d| - 1])
  }

  /** Writing one more digit multiplies the number by ten and adds the digit. */
  lemma DigitsValueAppend(d: string, c: char)
    requires AllDigits(d) && IsDigit(c)
    ensures AllDigits(d + [c])
    ensures DigitsValue(d + [c]) == DigitsValue(d) * 10 + DigitValue(c)
  {
    assert (d + [c])[..|d|] == d;
  }

  function Pow10(n: nat): (p: nat)
    ensures p >= 1
  {
    if n == 0 then 1 else 10 * Pow10(n - 1)
  }

  /** The end of a greedy `[\d.,]*` that starts at `i`. */
  function AmountRun(s: string, i: nat): (j: nat)
    requires i <= |s|
    ensures i <= j <= |s|
    ensures forall k :: i <= k < j ==> IsAmountChar(s[k])
    ensures j == |s| || !IsAmountChar(s[j])
    decreases |s| - i
  {
    if i < |s| && IsAmountChar(s[i]) then AmountRun(s, i + 1) else i
  }

  /** The end of a greedy `\d*` that starts at `i`. */
  function DigitRun(s: string, i: nat): (j: nat)
    requires i <= |s|
    ensures i <= j <= |s|
    ensures forall k :: i <= k < j ==> IsDigit(s[k])
    ensures j == |s| || !IsDigit(s[j])
    decreases |s| - i
  {
    if i < |s| && IsDigit(s[i]) then DigitRun(s, i + 1) else i
  }

  lemma {:induction false} AmountRunOver(s: string, i: nat, j: nat)
    requires i <= j <= |s|
    requires forall k :: i <= k < j ==> IsAmountChar(s[k])
    requires j == |s| || !IsAmountChar(s[j])
    ensures AmountRun(s, i) == j
    decreases j - i
  {
    if i < j {
      AmountRunOver(s, i + 1, j);
    }
  }

  /** `s.replace(/\./g, '')`. */
  function RemoveDots(s: string): (r: string)
    ensures |r| <= |s|
    ensures forall k :: 0 <= k < |r| ==> r[k] != '.'
  {
    if s == [] then [] else (if s[0] == '.' then [] else [s[0]]) + RemoveDots(s[1..])
  }

  /** `s.replace(',', '.')`: a string pattern replaces only its first occurrence. */
  function ReplaceFirstComma(s: string): (r: string)
    ensures |r| == |s|
  {
    if s == [] then []
    else if s[0] == ',' then ['.'] + s[1..]
    else [s[0]] + ReplaceFirstComma(s[1..])
  }

  /** The amount text as handed to `parseFloat`. */
  function Normalize(s: string): (r: string)
    ensures |r| <= |s|
  {
    ReplaceFirstComma(RemoveDots(s))
  }

  lemma {:induction false} RemoveDotsKeepsAlphabet(s: string)
    requires AllAmountChars(s)
    ensures AllAmountChars(RemoveDots(s))
    decreases |s|
  {
    if s != [] {
      RemoveDotsKeepsAlphabet(s[1..]);
    }
  }

  lemma {:induction false} ReplaceFirstCommaKeepsAlphabet(s: string)
    requires AllAmountChars(s)
    ensures AllAmountChars(ReplaceFirstComma(s))
    decreases |s|
  {
    if s != [] && s[0] != ',' {
      ReplaceFirstCommaKeepsAlphabet(s[1..]);
    }
  }

  /** Normalising keeps the text inside the `[\d.,]` alphabet. */
  lemma NormalizeKeepsAlphabet(s: string)
    requires AllAmountChars(s)
    ensures AllAmountChars(Normalize(s))
  {
    RemoveDotsKeepsAlphabet(s);
    ReplaceFirstCommaKeepsAlphabet(RemoveDots(s));
  }

  /** The number written as the digits `d`, a decimal point and the digits `f`. */
  function DecimalValue(d: string, f: string): (v: real)
    requires AllDigits(d) && AllDigits(f)
    ensures v >= 0.0
  {
    DigitsValue(d) as real + DigitsValue(f) as real / Pow10(|f|) as real
  }

  /**
   * `parseFloat(t)` on a string of digits, dots and commas: the value of the
   * longest prefix of the form `\d*` or `\d*\.\d*` that holds at least one
   * digit, and NaN (`None`) when there is no such prefix.
   */
  function ParseFloat(t: string): (r: Option<real>)
    requires AllAmountChars(t)
    ensures r.Some? ==> r.value >= 0.0
  {
    var i := DigitRun(t, 0);
    if i < |t| && t[i] == '.' then
      var j := DigitRun(t, i + 1);
      if i == 0 && j == i + 1 then None
      else Some(DecimalValue(t[..i], t[i + 1..j]))
    else if i == 0 then None
    else Some(DigitsValue(t[..i]) as real)
  }

  /** The amount a `[\d.,]+` match stands for: `parseFloat` of the normalised text. */
  function ParseLocalAmount(s: string): (r: Option<real>)
    requires AllAmountChars(s)
    ensures r.Some? ==> r.value >= 0.0
  {
    NormalizeKeepsAlphabet(s);
    ParseFloat(Normalize(s))
  }

  // ---------------------------------------------------------------------------
  // Properties of the normalisation
  // ---------------------------------------------------------------------------

  lemma {:induction false} RemoveDotsAppend(a: string, b: string)
    ensures RemoveDots(a + b) == RemoveDots(a) + RemoveDots(b)
    decreases |a|
  {
    if a != [] {
      assert (a + b)[1..] == a[1..] + b;
      RemoveDotsAppend(a[1..], b);
    } else {
      assert a + b == b;
    }
  }

  lemma {:induction false} RemoveDotsOfDotFree(s: string)
    requires forall k :: 0 <= k < |s| ==> s[k] != '.'
    ensures RemoveDots(s) == s
    decreases |s|
  {
    if s != [] {
      RemoveDotsOfDotFree(s[1..]);
    }
  }

  lemma {:induction false} ReplaceFirstCommaAfterDigits(d: string, rest: string)
    requires AllDigits(d)
    ensures ReplaceFirstComma(d + "," + rest) == d + "." + rest
    decreases |d|
  {
    if d == [] {
      assert d + "," + rest == [','] + rest;
      assert d + "." + rest == ['.'] + rest;
    } else {
      assert (d + "," + rest)[0] == d[0];
      assert (d + "," + rest)[1..] == d[1..] + "," + rest;
      ReplaceFirstCommaAfterDigits(d[1..], rest);
      assert d + "." + rest == [d[0]] + (d[1..] + "." + rest);
    }
  }

  lemma {:induction false} ReplaceFirstCommaOfDigits(d: string)
    requires AllDigits(d)
    ensures ReplaceFirstComma(d) == d
    decreases |d|
  {
    if d != [] {
      ReplaceFirstCommaOfDigits(d[1..]);
    }
  }

  lemma {:induction false} DigitRunOver(t: string, i: nat, j: nat)
    requires i <= j <= |t|
    requires forall k :: i <= k < j ==> IsDigit(t[k])
    requires j == |t| || !IsDigit(t[j])
    ensures DigitRun(t, i) == j
    decreases j - i
  {
    if i < j {
      DigitRunOver(t, i + 1, j);
    }
  }

  /** Where the two digit runs of `\d+\.\d*` end, when they are known. */
  lemma DecimalRuns(t: string, i: nat, j: nat)
    requires 0 < i < j <= |t| && t[i] == '.'
    requires AllDigits(t[..i]) && AllDigits(t[i + 1..j])
    requires j == |t| || !IsDigit(t[j])
    ensures DigitRun(t, 0) == i && DigitRun(t, i + 1) == j
  {
    assert forall k :: 0 <= k < i ==> t[..i][k] == t[k];
    assert forall k :: i + 1 <= k < j ==> t[i + 1..j][k - i - 1] == t[k];
    DigitRunOver(t, 0, i);
    DigitRunOver(t, i + 1, j);
  }

  /** `parseFloat` once the integer digits end at `i` on a point and the fraction digits end at `j`. */
  lemma ParseFloatAt(t: string, i: nat, j: nat)
    requires AllAmountChars(t)
    requires 0 < i < j <= |t| && t[i] == '.'
    requires AllDigits(t[..i]) && AllDigits(t[i + 1..j])
    requires DigitRun(t, 0) == i && DigitRun(t, i + 1) == j
    ensures ParseFloat(t) == Some(DecimalValue(t[..i], t[i + 1..j]))
  {
  }

  lemma DecimalAlphabet(d: string, f: string)
    requires AllDigits(d) && AllDigits(f)
    ensures AllAmountChars(d + "." + f)
  {
    var t := d + "." + f;
    forall k | 0 <= k < |t| ensures IsAmountChar(t[k]) {
      if k < |d| { assert t[k] == d[k]; } else if k > |d| { assert t[k] == f[k - |d| - 1]; }
    }
  }

  /** Value of the digits `d` followed by a decimal point and the digits `f`. */
  lemma ParseFloatOfDecimal(d: string, f: string)
    requires AllDigits(d) && AllDigits(f) && d != []
    ensures AllAmountChars(d + "." + f)
    ensures ParseFloat(d + "." + f) == Some(DecimalValue(d, f))
  {
    var t := d + "." + f;
    DecimalAlphabet(d, f);
    assert t[..|d|] == d;
    assert t[|d| + 1..|t|] == f;
    DecimalRuns(t, |d|, |t|);
    ParseFloatAt(t, |d|, |t|);
  }

  lemma ParseFloatOfDigits(d: string)
    requires AllDigits(d) && d != []
    ensures ParseFloat(d) == Some(DigitsValue(d) as real)
  {
    DigitRunOver(d, 0, |d|);
    assert d[..|d|] == d;
  }

  /** An amount written as digits alone, with no dot and no comma, reads as the whole number it spells. */
  lemma DigitsAmount(d: string)
    requires AllDigits(d) && d != []
    ensures AllAmountChars(d)
    ensures ParseLocalAmount(d) == Some(DigitsValue(d) as real)
  {
    RemoveDotsOfDotFree(d);
    ReplaceFirstCommaOfDigits(d);
    ParseFloatOfDigits(d);
  }

  // ---------------------------------------------------------------------------
  // Round trip with the local way of writing amounts
  // ---------------------------------------------------------------------------

  /** Digits grouped in threes from the right, separated by `.`: `1234567` as `1.234.567`. */
  function GroupThousands(d: string): (r: string)
    requires AllDigits(d)
    ensures AllAmountChars(r)
    decreases |d|
  {
    if |d| <= 3 then d else GroupThousands(d[..|d| - 3]) + "." + d[|d| - 3..]
  }

  /** `n` with the decimal digits `frac`, written the local way: `FormatLocal(1234, "56") == "1.234,56"`. */
  function FormatLocal(n: nat, frac: string): (r: string)
    requires AllDigits(frac)
    ensures AllAmountChars(r)
  {
    GroupThousands(NatToDigits(n)) + (if frac == "" then "" else "," + frac)
  }

  lemma RemoveDotsOfDotThenDigits(lo: string)
    requires AllDigits(lo)
    ensures RemoveDots("." + lo) == lo
  {
    RemoveDotsOfDotFree(lo);
    assert ("." + lo)[1..] == lo;
  }

  lemma {:induction false} RemoveDotsOfGrouped(d: string)
    requires AllDigits(d)
    ensures RemoveDots(GroupThousands(d)) == d
    decreases |d|
  {
    if |d| <= 3 {
      RemoveDotsOfDotFree(d);
    } else {
      var hi, lo := d[..|d| - 3], d[|d| - 3..];
      DigitsSplit(d, |d| - 3);
      GroupThousandsStep(d);
      var g := GroupThousands(hi);
      RemoveDotsOfGrouped(hi);
      RemoveDotsOfDotThenDigits(lo);
      RemoveDotsAppend(g, "." + lo);
    }
  }

  lemma DigitsSplit(d: string, i: nat)
    requires AllDigits(d) && i <= |d|
    ensures AllDigits(d[..i]) && AllDigits(d[i..]) && d[..i] + d[i..] == d
  {
    assert forall k :: 0 <= k < i ==> d[..i][k] == d[k];
    assert forall k :: 0 <= k < |d| - i ==> d[i..][k] == d[i + k];
  }

  lemma GroupThousandsStep(d: string)
    requires AllDigits(d) && |d| > 3
    requires AllDigits(d[..|d| - 3])
    ensures GroupThousands(d) == GroupThousands(d[..|d| - 3]) + ("." + d[|d| - 3..])
  {
  }

  lemma {:induction false} DigitsValueOfNat(n: nat)
    ensures DigitsValue(NatToDigits(n)) == n
  {
    if n >= 10 {
      var d := NatToDigits(n);
      DigitsValueOfNat(n / 10);
      assert d[..|d| - 1] == NatToDigits(n / 10);
    }
  }

  /** Normalising the local writing leaves the plain digits and, if any, a decimal point and the fraction. */
  lemma NormalizeOfFormatted(n: nat, frac: string)
    requires AllDigits(frac)
    ensures Normalize(FormatLocal(n, frac)) == if frac == "" then NatToDigits(n) else NatToDigits(n) + "." + frac
  {
    var d := NatToDigits(n);
    var g := GroupThousands(d);
    RemoveDotsOfGrouped(d);
    if frac == "" {
      assert FormatLocal(n, frac) == g;
      ReplaceFirstCommaOfDigits(d);
    } else {
      assert FormatLocal(n, frac) == g + ("," + frac);
      NormalizeOfGroupedFraction(d, frac);
    }
  }

  lemma NormalizeOfGroupedFraction(d: string, frac: string)
    requires AllDigits(d) && AllDigits(frac)
    ensures Normalize(GroupThousands(d) + ("," + frac)) == d + "." + frac
  {
    var g := GroupThousands(d);
    var c := "," + frac;
    RemoveDotsOfGrouped(d);
    CommaFractionDotFree(frac);
    RemoveDotsAppend(g, c);
    assert RemoveDots(g + c) == d + c;
    assert d + c == d + "," + frac;
    ReplaceFirstCommaAfterDigits(d, frac);
  }

  lemma CommaFractionDotFree(frac: string)
    requires AllDigits(frac)
    ensures RemoveDots("," + frac) == "," + frac
  {
    var c := "," + frac;
    forall k | 0 <= k < |c| ensures c[k] != '.' {
      if k > 0 { assert c[k] == frac[k - 1]; }
    }
    RemoveDotsOfDotFree(c);
  }

  /**
   * Parsing an amount written the local way gives back the number that was
   * written: the thousands dots vanish and the comma is the decimal point.
   */
  lemma RoundTrip(n: nat, frac: string)
    requires AllDigits(frac)
    ensures ParseLocalAmount(FormatLocal(n, frac)) == Some(DecimalValue(NatToDigits(n), frac))
    ensures DecimalValue(NatToDigits(n), frac) == n as real + DigitsValue(frac) as real / Pow10(|frac|) as real
  {
    var d := NatToDigits(n);
    DigitsValueOfNat(n);
    NormalizeOfFormatted(n, frac);
    if frac == "" {
      ParseFloatOfDigits(d);
    } else {
      ParseFloatOfDecimal(d, frac);
    }
  }

  lemma FormatLocalExample()
    ensures FormatLocal(1234, "56") == "1.234,56"
  {
    assert NatToDigits(1234) == "1234";
    assert GroupThousands("1234") == "1.234";
  }

  /** The worked example: `1.234,56` is 1234.56. */
  lemma ThousandsExample(s: string)
    requires s == "1.234,56"
    ensures AllAmountChars(s)
    ensures ParseLocalAmount(s) == Some(1234.56)
  {
    FormatLocalExample();
    RoundTrip(1234, "56");
    assert "56"[..1] == "5";
    assert DigitsValue("56") == 56;
    assert Pow10(2) == 100;
  }

  /** Only the first comma is a decimal point; a second one ends the number. */
  lemma SecondCommaEndsNumber(d: string, f: string, g: string)
    requires AllDigits(d) && AllDigits(f) && AllAmountChars(g) && d != []
    requires forall k :: 0 <= k < |g| ==> g[k] != '.'
    ensures AllAmountChars(d + "," + f + "," + g)
    ensures ParseLocalAmount(d + "," + f + "," + g) == Some(DecimalValue(d, f))
  {
    var s := d + "," + f + "," + g;
    SecondCommaAlphabet(d, f, g);
    SecondCommaNormalized(d, f, g);
    NormalizeKeepsAlphabet(s);
    SecondCommaParsed(d, f, d + "." + (f + "," + g));
  }

  lemma SecondCommaNormalized(d: string, f: string, g: string)
    requires AllDigits(d) && AllDigits(f)
    requires forall k :: 0 <= k < |g| ==> g[k] != '.'
    ensures Normalize(d + "," + f + "," + g) == d + "." + (f + "," + g)
  {
    var s := d + "," + f + "," + g;
    assert s == d + "," + (f + "," + g);
    forall k | 0 <= k < |s| ensures s[k] != '.' {
      if k < |d| { assert s[k] == d[k]; }
      else if |d| < k < |d| + 1 + |f| { assert s[k] == f[k - |d| - 1]; }
      else if k > |d| + 1 + |f| { assert s[k] == g[k - |d| - 2 - |f|]; }
    }
    RemoveDotsOfDotFree(s);
    ReplaceFirstCommaAfterDigits(d, f + "," + g);
  }

  lemma SecondCommaParsed(d: string, f: string, t: string)
    requires AllDigits(d) && AllDigits(f) && d != []
    requires |t| > |d| + 1 + |f| && t[..|d| + 1 + |f| + 1] == d + "." + f + ","
    requires AllAmountChars(t)
    ensures ParseFloat(t) == Some(DecimalValue(d, f))
  {
    var i := |d|;
    var j := |d| + 1 + |f|;
    assert t[..i] == t[..j + 1][..i] == d;
    assert t[i + 1..j] == t[..j + 1][i + 1..j] == f;
    assert t[i] == t[..j + 1][i] == '.';
    assert t[j] == t[..j + 1][j] == ',';
    DecimalRuns(t, i, j);
    ParseFloatAt(t, i, j);
  }

  lemma SecondCommaAlphabet(d: string, f: string, g: string)
    requires AllDigits(d) && AllDigits(f) && AllAmountChars(g)
    ensures AllAmountChars(d + "," + f + "," + g)
  {
    var s := d + "," + f + "," + g;
    forall k | 0 <= k < |s| ensures IsAmountChar(s[k]) {
      if k < |d| { assert s[k] == d[k]; }
      else if |d| < k < |d| + 1 + |f| { assert s[k] == f[k - |d| - 1]; }
      else if k > |d| + 1 + |f| { assert s[k] == g[k - |d| - 2 - |f|]; }
    }
  }

  /** A run of separators with no digit is not a number. */
  lemma NoDigitsIsNaN(s: string)
    requires AllAmountChars(s)
    requires forall k :: 0 <= k < |s| ==> !IsDigit(s[k])
    ensures ParseLocalAmount(s).None?
  {
    NoDigitsSurviveRemoveDots(s);
    var u := RemoveDots(s);
    NoDigitsSurviveReplace(u);
  }

  lemma {:induction false} NoDigitsSurviveRemoveDots(s: string)
    requires forall k :: 0 <= k < |s| ==> !IsDigit(s[k])
    ensures forall k :: 0 <= k < |RemoveDots(s)| ==> !IsDigit(RemoveDots(s)[k])
    decreases |s|
  {
    if s != [] {
      NoDigitsSurviveRemoveDots(s[1..]);
    }
  }

  lemma {:induction false} NoDigitsSurviveReplace(s: string)
    requires forall k :: 0 <= k < |s| ==> !IsDigit(s[k])
    ensures forall k :: 0 <= k < |ReplaceFirstComma(s)| ==> !IsDigit(ReplaceFirstComma(s)[k])
    decreases |s|
  {
    if s != [] && s[0] != ',' {
      NoDigitsSurviveReplace(s[1..]);
    }
  }
}
