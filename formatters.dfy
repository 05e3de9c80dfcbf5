/** Display formatting of costs, token counts and token breakdowns. */
module Formatters {
  import opened Wrappers
  import opened Text
  import opened Session

  // ---------------------------------------------------------------- costs

  /** `formatCost`: "$0.00" without a cost, "<$0.01" below a cent (zero and negative costs included),
      otherwise dollars with two decimals. */
  function FormatCost(cost: Option<real>): string {
    if cost.None? then "$0.00"
    else if cost.value < 0.01 then "<$0.01"
    else "$" + ToFixed(cost.value, 2)
  }

  /** "<$0.01" is shown exactly for a cost below a cent, and a missing cost shows as "$0.00". */
  lemma FormatCostBands(cost: Option<real>)
    ensures FormatCost(cost) == "<$0.01" <==> cost.Some? && cost.value < 0.01
    ensures cost.None? ==> FormatCost(cost) == "$0.00"
  {
    if cost.Some? && cost.value >= 0.01 {
      assert FormatCost(cost)[0] == '$';
    }
  }

  /** A cost of at least a cent is shown as "$", whole dollars, "." and two digits of cents, and
      the digits read back as the cost in cents, rounded to the nearest cent. */
  lemma FormatCostReadsBack(c: real) returns (dollars: string, cents: string)
    requires c >= 0.01
    ensures FormatCost(Some(c)) == "$" + dollars + "." + cents
    ensures 1 <= |dollars| && AllDigits(dollars) && |cents| == 2 && AllDigits(cents)
    ensures DigitsValue(dollars) * 100 + DigitsValue(cents) == Round(c * 100.0) >= 1
  {
    var a := ToFixed(c, 2);
    assert FormatCost(Some(c)) == "$" + a;
    assert Round(c * 100.0) >= 1 by {
      assert c * 100.0 >= 1.0;
    }
    dollars, cents := a[..|a| - 3], a[|a| - 2..];
    CentsValue(c, a);
    assert a == dollars + "." + cents;
  }

  /** Two-decimal text of a non-negative amount: whole part, '.', two digits, together worth the rounded cents. */
  lemma CentsValue(c: real, a: string)
    requires c >= 0.0 && a == ToFixed(c, 2)
    ensures |a| >= 4 && a[|a| - 3] == '.' && AllDigits(a[..|a| - 3]) && AllDigits(a[|a| - 2..])
    ensures DigitsValue(a[..|a| - 3]) * 100 + DigitsValue(a[|a| - 2..]) == Round(c * 100.0)
  {
    assert Pow10(2) == 100 by { assert Pow10(1) == 10; }
    ToFixedReadsBack(c, 2);
  }

  // ---------------------------------------------------------------- token counts

  /** `formatTokens`: every branch ends in " tokens", after an amount without spaces. */
  function FormatTokens(tokens: Option<nat>): (r: string)
    ensures |r| >= 8 && EndsWith(r, " tokens") && ' ' !in r[..|r| - 7]
  {
    var a := if tokens.None? then "0" else TokenAmount(tokens.value);
    AmountWithTokens(a);
    a + " tokens"
  }

  /** The amount `formatTokens` writes before " tokens": the count in millions with one decimal and
      "M" from a million, in thousands with one decimal and "K" from a thousand, else the count. */
  function TokenAmount(n: nat): (a: string)
    ensures 1 <= |a| && ' ' !in a
  {
    if n == 0 then "0"
    else if n >= 1000000 then
      var x := ToFixed(n as real / 1000000.0, 1);
      NumericHasNoSpace(x);
      x + "M"
    else if n >= 1000 then
      var x := ToFixed(n as real / 1000.0, 1);
      NumericHasNoSpace(x);
      x + "K"
    else
      var x := NatToString(n);
      NumericHasNoSpace(x);
      x
  }

  /** `formatTokens` on a positive number that need not be whole, such as a rate: from a million and from
      a thousand as for counts; below a thousand `${x}`, which is the decimal text of a whole number and,
      for a fraction, `numberText(x)`, JavaScript's shortest decimal text of the double. */
  function FormatTokensOfNumber(x: real, numberText: real -> string): (r: string)
    requires x > 0.0
    ensures EndsWith(r, " tokens")
  {
    var a :=
      if x >= 1000000.0 then ToFixed(x / 1000000.0, 1) + "M"
      else if x >= 1000.0 then ToFixed(x / 1000.0, 1) + "K"
      else if x == x.Floor as real then NatToString(x.Floor)
      else numberText(x);
    EndsWithAppend(a, " tokens");
    a + " tokens"
  }

  /** On a whole count it is `formatTokens` of that count, whatever `numberText` does with fractions. */
  lemma FormatTokensOfWholeNumber(n: nat, numberText: real -> string)
    requires n > 0
    ensures FormatTokensOfNumber(n as real, numberText) == FormatTokens(Some(n))
  {
  }

  /** An amount without spaces followed by " tokens". */
  lemma AmountWithTokens(a: string)
    requires |a| >= 1 && ' ' !in a
    ensures var r := a + " tokens"; |r| >= 8 && EndsWith(r, " tokens") && r[..|r| - 7] == a
  {
    var r := a + " tokens";
    assert r[..|r| - 7] == a;
    assert r[|r| - 7..] == " tokens";
  }

  /** Numeric text holds no space. */
  lemma NumericHasNoSpace(s: string)
    requires IsNumeric(s)
    ensures ' ' !in s
  {
  }

  /** A null count reads as zero. */
  lemma NullTokensAreZero()
    ensures FormatTokens(None) == FormatTokens(Some(0)) == "0 tokens"
  {
  }

  /** Below a thousand the amount is the count itself, in full. */
  lemma SmallCountsExact(n: nat)
    requires n < 1000
    ensures AllDigits(TokenAmount(n)) && DigitsValue(TokenAmount(n)) == n
  {
    if n == 0 {
      assert TokenAmount(0) == "0";
    } else {
      assert TokenAmount(n) == NatToString(n);
    }
    NatToStringRoundTrip(n);
  }

  /** An amount with one decimal: digits, ".", one digit. */
  predicate OneDecimal(a: string) {
    |a| >= 3 && a[|a| - 2] == '.' && AllDigits(a[..|a| - 2]) && IsDigit(a[|a| - 1])
  }

  /** The value of a one-decimal amount, in tenths. */
  function Tenths(a: string): nat
    requires OneDecimal(a)
  {
    DigitsValue(a[..|a| - 2]) * 10 + DigitValue(a[|a| - 1])
  }

  /** `x.toFixed(1)` of a non-negative `x` reads back as `x` in tenths, rounded. */
  lemma OneDecimalReadsBack(x: real)
    requires x >= 0.0
    ensures OneDecimal(ToFixed(x, 1)) && Tenths(ToFixed(x, 1)) == Round(x * 10.0)
  {
    assert Pow10(1) == 10;
    ToFixedReadsBack(x, 1);
    var a := ToFixed(x, 1);
    var f := a[|a| - 1..];
    assert f == [a[|a| - 1]];
    assert DigitsValue(f) == DigitValue(a[|a| - 1]) by {
      assert f[..0] == [];
    }
  }

  /** From a thousand to below a million the amount is "K" after the count in thousands with one
      decimal, i.e. the count in hundreds, rounded. */
  lemma ThousandsUnit(n: nat)
    requires 1000 <= n < 1000000
    ensures var a := TokenAmount(n);
      |a| >= 4 && a[|a| - 1] == 'K' && OneDecimal(a[..|a| - 1]) && Tenths(a[..|a| - 1]) == Round(n as real / 100.0)
  {
    var x := n as real / 1000.0;
    var a := TokenAmount(n);
    assert a == ToFixed(x, 1) + "K";
    assert a[..|a| - 1] == ToFixed(x, 1);
    OneDecimalReadsBack(x);
    assert x * 10.0 == n as real / 100.0;
  }

  /** From a million up the amount is "M" after the count in millions with one decimal, i.e. the count
      in hundred-thousands, rounded. */
  lemma MillionsUnit(n: nat)
    requires n >= 1000000
    ensures var a := TokenAmount(n);
      |a| >= 4 && a[|a| - 1] == 'M' && OneDecimal(a[..|a| - 1]) && Tenths(a[..|a| - 1]) == Round(n as real / 100000.0)
  {
    var x := n as real / 1000000.0;
    var a := TokenAmount(n);
    assert a == ToFixed(x, 1) + "M";
    assert a[..|a| - 1] == ToFixed(x, 1);
    OneDecimalReadsBack(x);
    assert x * 10.0 == n as real / 100000.0;
  }

  /** `formatTokens(n).replace(" tokens", "")` is exactly the amount. */
  lemma StripTokens(n: nat)
    ensures ReplaceFirst(FormatTokens(Some(n)), " tokens", "") == TokenAmount(n)
  {
    ReplaceSuffix(TokenAmount(n), " tokens");
  }

  // ---------------------------------------------------------------- token breakdowns

  /** The parts of a breakdown, in order: input, output, and the two cache counts together. */
  function Parts(b: TokenBreakdown): seq<string> {
    InputPart(b) + OutputPart(b) + CachedPart(b)
  }

  function InputPart(b: TokenBreakdown): seq<string> {
    if b.input > 0 then [TokenAmount(b.input) + "in"] else []
  }

  function OutputPart(b: TokenBreakdown): seq<string> {
    if b.output > 0 then [TokenAmount(b.output) + "out"] else []
  }

  function CachedPart(b: TokenBreakdown): seq<string> {
    if b.cacheCreation > 0 || b.cacheRead > 0 then [TokenAmount(b.cacheCreation + b.cacheRead) + "cached"] else []
  }

  /** The text `formatTokenBreakdown` returns: the parts joined with " + ", or "0 tokens" without any. */
  function BreakdownText(breakdown: Option<TokenBreakdown>): string {
    if breakdown.None? || Parts(breakdown.value) == [] then "0 tokens" else Join(Parts(breakdown.value), " + ")
  }

  /** `formatTokenBreakdown`: the parts pushed one by one, joined with " + ". */
  method FormatTokenBreakdown(breakdown: Option<TokenBreakdown>) returns (r: string)
    ensures r == BreakdownText(breakdown)
    ensures breakdown.None? ==> r == "0 tokens"
    ensures breakdown.Some? && Parts(breakdown.value) == [] ==> r == "0 tokens"
    ensures breakdown.Some? && Parts(breakdown.value) != [] ==> r == Join(Parts(breakdown.value), " + ")
  {
    if breakdown.None? {
      return "0 tokens";
    }
    var b := breakdown.value;
    var parts: seq<string> := [];
    parts := PushAmountIf(parts, b.input > 0, b.input, "in");
    assert parts == InputPart(b);
    parts := PushAmountIf(parts, b.output > 0, b.output, "out");
    assert parts == InputPart(b) + OutputPart(b);
    parts := PushAmountIf(parts, b.cacheCreation > 0 || b.cacheRead > 0, b.cacheCreation + b.cacheRead, "cached");
    assert parts == Parts(b);
    r := if |parts| > 0 then Join(parts, " + ") else "0 tokens";
  }

  /** A push guarded by the count's condition. */
  method PushAmountIf(parts: seq<string>, push: bool, n: nat, suffix: string) returns (parts': seq<string>)
    ensures parts' == parts + (if push then [TokenAmount(n) + suffix] else [])
  {
    parts' := parts;
    if push {
      parts' := PushAmount(parts, n, suffix);
    }
  }

  /** One push: the count formatted, " tokens" removed, the suffix appended. */
  method PushAmount(parts: seq<string>, n: nat, suffix: string) returns (parts': seq<string>)
    ensures parts' == parts + [TokenAmount(n) + suffix]
  {
    var amount := ReplaceFirst(FormatTokens(Some(n)), " tokens", "");
    assert amount == TokenAmount(n) by { StripTokens(n); }
    parts' := parts + [amount + suffix];
  }

  /** There are no parts exactly when the breakdown's four counts sum to zero. */
  lemma NoPartsIffNoTokens(b: TokenBreakdown)
    ensures Parts(b) == [] <==> Total(b) == 0
  {
  }

  /** The joined text ends with the last part's last character. */
  lemma {:induction false} JoinEndsWithLastPart(parts: seq<string>, sep: string)
    requires |parts| >= 1 && |parts[|parts| - 1]| >= 1
    ensures var j := Join(parts, sep); |j| >= 1 && j[|j| - 1] == parts[|parts| - 1][|parts[|parts| - 1]| - 1]
  {
    if |parts| > 1 {
      JoinEndsWithLastPart(parts[1..], sep);
    }
  }

  /** "0 tokens" is shown exactly when there is no breakdown or it counts no tokens: a joined text ends
      in "n", "t" or "d", never in the "s" of "tokens". */
  lemma ZeroTextIffNoTokens(b: Option<TokenBreakdown>)
    ensures BreakdownText(b) == "0 tokens" <==> b.None? || Total(b.value) == 0
  {
    if b.Some? && Parts(b.value) != [] {
      var ps := Parts(b.value);
      JoinEndsWithLastPart(ps, " + ");
      var j := Join(ps, " + ");
      assert j[|j| - 1] != 's';
    }
  }

  /** The two-entry session of 2500 input, 1250 output, 100 + 200 cache tokens. */
  lemma BreakdownExample()
    ensures Parts(TokenBreakdown(2500, 1250, 100, 200)) == ["2.5Kin", "1.3Kout", "300cached"]
  {
    var b := TokenBreakdown(2500, 1250, 100, 200);
    Amount2500();
    Amount1250();
    Amount300();
    assert "2.5K" + "in" == "2.5Kin" && "1.3K" + "out" == "1.3Kout" && "300" + "cached" == "300cached";
    assert InputPart(b) == ["2.5Kin"];
    assert OutputPart(b) == ["1.3Kout"];
    assert CachedPart(b) == ["300cached"];
  }

  /** 2500 tokens are shown as "2.5K". */
  lemma Amount2500()
    ensures TokenAmount(2500) == "2.5K"
  {
    assert Pow10(1) == 10;
    assert Round(2500 as real / 1000.0 * 10 as real) == 25;
    assert NatToString(2) == "2" && NatToString(5) == "5";
    assert FixedDigits(25, 1) == "2.5";
    assert ToFixed(2500 as real / 1000.0, 1) == "2.5";
    assert FormatTokens(Some(2500)) == "2.5K tokens";
  }

  /** 1.25 thousand is a tie, and toFixed rounds it up. */
  lemma Amount1250()
    ensures TokenAmount(1250) == "1.3K"
  {
    assert Pow10(1) == 10;
    assert Round(1250 as real / 1000.0 * 10 as real) == 13;
    assert NatToString(1) == "1" && NatToString(3) == "3";
    assert FixedDigits(13, 1) == "1.3";
    assert ToFixed(1250 as real / 1000.0, 1) == "1.3";
    assert FormatTokens(Some(1250)) == "1.3K tokens";
  }

  /** Below a thousand the count is shown as it is. */
  lemma Amount300()
    ensures TokenAmount(300) == "300"
  {
    assert NatToString(3) == "3" && NatToString(30) == "30" && NatToString(300) == "300";
    assert FormatTokens(Some(300)) == "300 tokens";
  }
}
