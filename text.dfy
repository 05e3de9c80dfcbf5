/** The string and number primitives of JavaScript that the formatters and renderers rely on:
    `${n}` for integers, `Math.round`, `Number.prototype.toFixed`, `toLocaleString` (en-US grouping),
    `String.prototype.split` / `includes` / `replace` / `startsWith` / `toLowerCase` (ASCII),
    and `Array.prototype.join`. */
module Text {
  import opened Wrappers

  predicate IsDigit(c: char) { '0' <= c <= '9' }

  predicate AllDigits(s: string) { forall i {:trigger IsDigit(s[i])} :: 0 <= i < |s| ==> IsDigit(s[i]) }

  /** Characters that `toFixed` and `${n}` can produce for a finite number. */
  predicate IsNumeric(s: string) { forall i :: 0 <= i < |s| ==> IsDigit(s[i]) || s[i] == '.' || s[i] == '-' }

  function DigitChar(d: nat): (c: char)
    requires d < 10
    ensures IsDigit(c) && c as int - '0' as int == d
  {
    ('0' as int + d) as char
  }

  function DigitValue(c: char): (d: nat)
    requires IsDigit(c)
    ensures d < 10 && DigitChar(d) == c
  {
    c as int - '0' as int
  }

  // ---------------------------------------------------------------- integers

  /** `${n}` for a non-negative integer: its decimal digits, without leading zeros. */
  function NatToString(n: nat): (s: string)
    ensures 1 <= |s| && AllDigits(s)
    ensures (s[0] == '0') == (n == 0)
    decreases n
  {
    if n < 10 then [DigitChar(n)] else NatToString(n / 10) + [DigitChar(n % 10)]
  }

  /** The value of a string of decimal digits: the inverse of NatToString. */
  function DigitsValue(s: string): nat
    requires AllDigits(s)
  {
    if s == [] then 0 else 10 * DigitsValue(s[..|s| - 1]) + DigitValue(s[|s| - 1])
  }

  /** Reading back the decimal text of `n` gives `n`. */
  lemma {:induction false} NatToStringRoundTrip(n: nat)
    ensures DigitsValue(NatToString(n)) == n
  {
    if n >= 10 {
      var s := NatToString(n);
      assert s[..|s| - 1] == NatToString(n / 10);
      NatToStringRoundTrip(n / 10);
    }
  }

  /** Distinct numbers render differently (a corollary of the round trip). */
  lemma NatToStringInjective(m: nat, n: nat)
    requires NatToString(m) == NatToString(n)
    ensures m == n
  {
    NatToStringRoundTrip(m);
    NatToStringRoundTrip(n);
  }

  /** `${i}` for any integer. */
  function IntToString(i: int): (s: string)
    ensures 1 <= |s| && IsNumeric(s)
  {
    if i < 0 then "-" + NatToString(-i) else NatToString(i)
  }

  /** `Math.round`: the nearest integer, halves rounded towards +infinity. */
  function Round(x: real): (r: int)
    ensures r as real - 0.5 <= x < r as real + 0.5
  {
    (x + 0.5).Floor
  }

  function Pow10(d: nat): (p: nat)
    ensures p >= 1
  {
    if d == 0 then 1 else 10 * Pow10(d - 1)
  }

  /** `x` in units of `10^-d`. */
  function Scaled(x: real, d: nat): real {
    x * Pow10(d) as real
  }

  /** Scaling by `10^0` leaves a number as it is. */
  lemma ScaledByOne(x: real)
    ensures Scaled(x, 0) == x
  {
    assert Pow10(0) == 1;
  }

  /** Scaling keeps a number non-negative. */
  lemma ScaledNonNegative(x: real, d: nat)
    requires x >= 0.0
    ensures Scaled(x, d) >= 0.0
  {
    NonNegativeProduct(x, Pow10(d) as real);
  }

  /** Left-pads a digit string with zeros up to `width` characters. */
  function PadZeros(s: string, width: nat): (r: string)
    requires AllDigits(s)
    ensures AllDigits(r) && |r| == if |s| >= width then |s| else width
    decreases width - |s|
  {
    if |s| >= width then s else PadZeros("0" + s, width)
  }

  /** The decimal text of `n / 10^d` with exactly `d` decimals, built as `toFixed` builds it: the
      digits of `n`, padded with zeros to at least `d + 1` digits, with a point before the last `d`. */
  function FixedDigits(n: nat, d: nat): string
  {
    if d == 0 then NatToString(n)
    else
      var m := PadZeros(NatToString(n), d + 1);
      m[..|m| - d] + "." + m[|m| - d..]
  }

  /** The text is numeric and starts with a digit. */
  lemma FixedDigitsNumeric(n: nat, d: nat)
    ensures var s := FixedDigits(n, d); 1 <= |s| && IsNumeric(s) && IsDigit(s[0])
  {
  }

  /** `x.toFixed(d)` evaluated on the exact rational `x` (ties go to the larger candidate, as the
      ECMAScript algorithm says): an optional sign, the integer part, and `d` decimals. */
  function ToFixed(x: real, d: nat): (s: string)
    ensures 1 <= |s| && IsNumeric(s)
    ensures x >= 0.0 ==> IsDigit(s[0])
    decreases if x < 0.0 then 1 else 0
  {
    if x < 0.0 then "-" + ToFixed(-x, d)
    else
      ScaledNonNegative(x, d);
      FixedDigitsNumeric(Round(Scaled(x, d)), d);
      FixedDigits(Round(Scaled(x, d)), d)
  }

  /** `toFixed` of a non-negative number has no sign. */
  lemma ToFixedUnsigned(x: real, d: nat, i: nat)
    requires x >= 0.0 && i < |ToFixed(x, d)|
    ensures IsDigit(ToFixed(x, d)[i]) || ToFixed(x, d)[i] == '.'
  {
    var m := ToFixedOfNonNegative(x, d);
    var s := FixedDigits(m, d);
    if d >= 1 {
      var w, f := FixedDigitsParts(m, d);
      assert s == w + "." + f;
      if i < |w| {
        assert s[i] == w[i];
      } else if i > |w| {
        assert s[i] == f[i - |w| - 1];
      }
    }
  }

  /** `x.toFixed(d)` of a non-negative `x` with `d >= 1` is digits, a point, and exactly `d` digits. */
  lemma ToFixedDecimals(x: real, d: nat)
    requires x >= 0.0 && d >= 1
    ensures var s := ToFixed(x, d);
      && |s| >= d + 2 && s[|s| - d - 1] == '.'
      && AllDigits(s[..|s| - d - 1]) && AllDigits(s[|s| - d..])
  {
    ToFixedReadsBack(x, d);
  }

  /** `x.toFixed(d)` of a non-negative `x` with `d >= 1` reads back as `x` in units of `10^-d`, rounded. */
  lemma ToFixedReadsBack(x: real, d: nat)
    requires x >= 0.0 && d >= 1
    ensures var s := ToFixed(x, d);
      && |s| >= d + 2 && s[|s| - d - 1] == '.'
      && AllDigits(s[..|s| - d - 1]) && AllDigits(s[|s| - d..])
      && DigitsValue(s[..|s| - d - 1]) * Pow10(d) + DigitsValue(s[|s| - d..]) == Round(Scaled(x, d))
  {
    var m := ToFixedOfNonNegative(x, d);
    var w, f := FixedDigitsParts(m, d);
    PointSplits(w, f);
  }

  /** On a non-negative number `toFixed` writes the rounded scaled value `m` with `d` decimals. */
  lemma ToFixedOfNonNegative(x: real, d: nat) returns (m: nat)
    requires x >= 0.0
    ensures m == Round(Scaled(x, d)) && ToFixed(x, d) == FixedDigits(m, d)
  {
    ScaledNonNegative(x, d);
    m := Round(Scaled(x, d));
  }

  /** A non-negative value scaled by at least one stays non-negative. */
  lemma NonNegativeProduct(x: real, y: real)
    requires x >= 0.0 && y >= 1.0
    ensures x * y >= 0.0
  {
  }

  /** With `d >= 1` the text is a whole part, a point and `d` decimals, and the digits read back as `n`
      in units of `10^-d`. */
  lemma FixedDigitsParts(n: nat, d: nat) returns (w: string, f: string)
    requires d >= 1
    ensures FixedDigits(n, d) == w + "." + f && |f| == d && 1 <= |w| && AllDigits(w) && AllDigits(f)
    ensures DigitsValue(w) * Pow10(d) + DigitsValue(f) == n
  {
    var m := PadZeros(NatToString(n), d + 1);
    w, f := m[..|m| - d], m[|m| - d..];
    assert FixedDigits(n, d) == w + "." + f;
    DigitsValueSplit(m, |m| - d);
    assert DigitsValue(m) == n by {
      NatToStringRoundTrip(n);
      PadZerosValue(NatToString(n), d + 1);
    }
  }

  /** Slices of a digit string are digit strings. */
  lemma AllDigitsSlice(s: string, i: nat, j: nat)
    requires AllDigits(s) && i <= j <= |s|
    ensures AllDigits(s[i..j])
  {
    assert forall k :: 0 <= k < j - i ==> s[i..j][k] == s[i + k];
  }

  /** The value of a digit string is the value of a prefix, shifted, plus the value of the rest. */
  lemma {:induction false} DigitsValueSplit(s: string, k: nat)
    requires AllDigits(s) && k <= |s|
    ensures AllDigits(s[..k]) && AllDigits(s[k..])
    ensures DigitsValue(s) == DigitsValue(s[..k]) * Pow10(|s| - k) + DigitsValue(s[k..])
    decreases |s|
  {
    AllDigitsSlice(s, 0, k);
    AllDigitsSlice(s, k, |s|);
    assert s[0..k] == s[..k] && s[k..|s|] == s[k..];
    if k == |s| {
      assert s[..k] == s && s[k..] == [];
    } else {
      var p := s[..|s| - 1];
      AllDigitsSlice(s, 0, |s| - 1);
      assert s[0..|s| - 1] == p;
      DigitsValueSplit(p, k);
      assert p[..k] == s[..k];
      var t := s[k..];
      assert t[..|t| - 1] == p[k..];
      assert t[|t| - 1] == s[|s| - 1];
      LastDigitStep(DigitsValue(s[..k]), DigitsValue(p[k..]), DigitValue(s[|s| - 1]), Pow10(|p| - k));
    }
  }

  /** Appending a digit `c` to `b` under a scale `q`, in integer arithmetic. */
  lemma LastDigitStep(a: int, b: int, c: int, q: int)
    ensures 10 * (a * q + b) + c == a * (10 * q) + (10 * b + c)
  {
    ShiftByTen(a, q);
  }

  /** Multiplying by ten commutes with a product. */
  lemma ShiftByTen(a: int, q: int)
    ensures 10 * (a * q) == a * (10 * q)
  {
  }

  /** Leading zeros do not change the value of a digit string. */
  lemma {:induction false} PadZerosValue(s: string, width: nat)
    requires AllDigits(s)
    ensures DigitsValue(PadZeros(s, width)) == DigitsValue(s)
    decreases width - |s|
  {
    if |s| < width {
      LeadingZeroValue(s);
      PadZerosValue("0" + s, width);
    }
  }

  /** A leading '0' does not change the value of a digit string. */
  lemma {:induction false} LeadingZeroValue(s: string)
    requires AllDigits(s)
    ensures DigitsValue("0" + s) == DigitsValue(s)
  {
    if s != [] {
      assert ("0" + s)[..|"0" + s| - 1] == "0" + s[..|s| - 1];
      LeadingZeroValue(s[..|s| - 1]);
    }
  }

  /** Where the '.' of `w + "." + f` sits, and what lies on each side of it. */
  lemma PointSplits(w: string, f: string)
    requires 1 <= |w| && AllDigits(w) && AllDigits(f)
    ensures var s := w + "." + f;
      && |s| >= |f| + 2 && s[|s| - |f| - 1] == '.'
      && s[..|s| - |f| - 1] == w && s[|s| - |f|..] == f
      && AllDigits(s[..|s| - |f| - 1]) && AllDigits(s[|s| - |f|..])
  {
    var s := w + "." + f;
    assert s[..|s| - |f| - 1] == w;
    assert s[|s| - |f|..] == f;
  }

  /** `n.toLocaleString()` in the en-US locale: digits grouped by three with commas. */
  function GroupThousands(n: nat): (s: string)
    ensures 1 <= |s|
    ensures forall i :: 0 <= i < |s| ==> IsDigit(s[i]) || s[i] == ','
    decreases n
  {
    if n < 1000 then NatToString(n) else GroupThousands(n / 1000) + "," + PadZeros(NatToString(n % 1000), 3)
  }

  // ---------------------------------------------------------------- strings

  /** The white space and line terminators that `parseInt` and `parseFloat` skip (ECMAScript
      StrWhiteSpaceChar): the control characters 9 to 13 and the space, then the non-ASCII ones from U+00A0 on. */
  predicate IsJsWhitespace(c: char) {
    if c <= ' ' then c == ' ' || '\t' <= c <= '\r'
    else
      && c >= 0xA0 as char
      && (|| c == 0xA0 as char || c == 0x1680 as char || (0x2000 as char <= c <= 0x200A as char)
          || c == 0x2028 as char || c == 0x2029 as char || c == 0x202F as char || c == 0x205F as char
          || c == 0x3000 as char || c == 0xFEFF as char)
  }

  /** The position of the first character at or after `i` that is not white space. */
  function SkipWhitespace(s: string, i: nat): (j: nat)
    requires i <= |s|
    ensures i <= j <= |s| && (j < |s| ==> !IsJsWhitespace(s[j]))
    decreases |s| - i
  {
    if i < |s| && IsJsWhitespace(s[i]) then SkipWhitespace(s, i + 1) else i
  }

  /** The length of the run of decimal digits starting at `i`. */
  function DigitRun(s: string, i: nat): (n: nat)
    ensures i + n <= |s| || n == 0
    decreases |s| - i
  {
    if i < |s| && IsDigit(s[i]) then 1 + DigitRun(s, i + 1) else 0
  }

  /** Every character of the run is a digit. */
  lemma {:induction false} DigitRunDigits(s: string, i: nat)
    requires i <= |s|
    ensures AllDigits(s[i..i + DigitRun(s, i)])
  {
    var run := s[i..i + DigitRun(s, i)];
    forall k | 0 <= k < |run| ensures IsDigit(run[k]) {
      DigitRunAt(s, i, i + k);
    }
  }

  /** Each position inside the run holds a digit. */
  lemma {:induction false} DigitRunAt(s: string, i: nat, k: nat)
    requires i <= k < i + DigitRun(s, i)
    ensures k < |s| && IsDigit(s[k])
    decreases k - i
  {
    if k > i {
      DigitRunAt(s, i + 1, k);
    }
  }

  predicate StartsWith(s: string, prefix: string) {
    |prefix| <= |s| && s[..|prefix|] == prefix
  }

  predicate EndsWith(s: string, suffix: string) {
    |suffix| <= |s| && s[|s| - |suffix|..] == suffix
  }

  /** A string starts with any of its prefixes. */
  lemma StartsWithAppend(a: string, b: string)
    ensures StartsWith(a + b, a)
  {
    assert (a + b)[..|a|] == a;
  }

  /** A string ends with what was appended to it. */
  lemma EndsWithAppend(a: string, b: string)
    ensures EndsWith(a + b, b)
  {
    assert (a + b)[|a + b| - |b|..] == b;
  }

  /** A prefix of a prefix is a prefix. */
  lemma StartsWithTrans(s: string, t: string, u: string)
    requires StartsWith(s, t) && StartsWith(t, u)
    ensures StartsWith(s, u)
  {
    assert s[..|u|] == s[..|t|][..|u|];
  }

  /** `sub` occurs in `s` at position `i`, character by character. */
  predicate OccursAt(s: string, sub: string, i: nat) {
    i + |sub| <= |s| && forall k {:trigger CharAt(s, i, k)} :: 0 <= k < |sub| ==> CharAt(s, i, k) == sub[k]
  }

  /** The character `k` places after position `i`; the one term an occurrence is instantiated on. */
  function CharAt(s: string, i: nat, k: nat): char
    requires i + k < |s|
  {
    s[i + k]
  }

  /** Each character of an occurrence is the character of `s` at its offset. */
  lemma OccursChar(s: string, sub: string, i: nat, k: nat)
    requires OccursAt(s, sub, i) && k < |sub|
    ensures i + k < |s| && s[i + k] == sub[k]
  {
    assert CharAt(s, i, k) == sub[k];
  }

  /** An occurrence is the slice of `s` at that position. */
  lemma OccursAtSlice(s: string, sub: string, i: nat)
    ensures OccursAt(s, sub, i) <==> i + |sub| <= |s| && s[i..i + |sub|] == sub
  {
    if i + |sub| <= |s| && s[i..i + |sub|] == sub {
      forall k | 0 <= k < |sub| ensures CharAt(s, i, k) == sub[k] {
        assert s[i..i + |sub|][k] == s[i + k];
      }
    }
    if OccursAt(s, sub, i) {
      forall k | 0 <= k < |sub| ensures s[i..i + |sub|][k] == sub[k] {
        assert CharAt(s, i, k) == sub[k];
      }
    }
  }

  /** A slice of `s` occurs in `s` where it was taken. */
  lemma OccursSlice(s: string, a: nat, b: nat)
    requires a <= b <= |s|
    ensures OccursAt(s, s[a..b], a)
  {
    forall k | 0 <= k < b - a ensures CharAt(s, a, k) == s[a..b][k] {
    }
  }

  /** Two adjacent occurrences make an occurrence of the concatenation. */
  lemma OccursConcat(s: string, t1: string, t2: string, i: nat)
    requires OccursAt(s, t1, i) && OccursAt(s, t2, i + |t1|)
    ensures OccursAt(s, t1 + t2, i)
  {
    forall k | 0 <= k < |t1 + t2| ensures CharAt(s, i, k) == (t1 + t2)[k] {
      if k < |t1| {
        assert CharAt(s, i, k) == t1[k];
      } else {
        assert CharAt(s, i + |t1|, k - |t1|) == t2[k - |t1|];
      }
    }
  }

  /** An occurrence of a concatenation is made of adjacent occurrences of its parts. */
  lemma OccursSplit(s: string, t1: string, t2: string, i: nat)
    requires OccursAt(s, t1 + t2, i)
    ensures OccursAt(s, t1, i) && OccursAt(s, t2, i + |t1|)
  {
    forall k | 0 <= k < |t1| ensures CharAt(s, i, k) == t1[k] {
      assert CharAt(s, i, k) == (t1 + t2)[k];
    }
    forall k | 0 <= k < |t2| ensures CharAt(s, i + |t1|, k) == t2[k] {
      assert CharAt(s, i, |t1| + k) == (t1 + t2)[|t1| + k];
    }
  }

  /** `s.indexOf(sub, from)`: the first position at or after `from` where `sub` occurs. */
  function IndexOfFrom(s: string, sub: string, from: nat): (r: Option<nat>)
    ensures r.Some? ==> from <= r.value && OccursAt(s, sub, r.value)
    ensures r.Some? ==> forall j :: from <= j < r.value ==> !OccursAt(s, sub, j)
    ensures r.None? ==> forall j :: from <= j ==> !OccursAt(s, sub, j)
    decreases |s| - from
  {
    if from + |sub| > |s| then None
    else if OccursAt(s, sub, from) then Some(from)
    else IndexOfFrom(s, sub, from + 1)
  }

  /** `s.includes(sub)`. */
  predicate Contains(s: string, sub: string) {
    IndexOfFrom(s, sub, 0).Some?
  }

  /** `includes` holds exactly when the text occurs somewhere. */
  lemma ContainsIff(s: string, sub: string)
    ensures Contains(s, sub) <==> exists i: nat :: OccursAt(s, sub, i)
  {
    if Contains(s, sub) {
      assert OccursAt(s, sub, IndexOfFrom(s, sub, 0).value);
    }
  }

  /** `s.replace(pattern, replacement)` with a string pattern: only the first occurrence is replaced. */
  function ReplaceFirst(s: string, pattern: string, replacement: string): (r: string)
  {
    match IndexOfFrom(s, pattern, 0)
    case None => s
    case Some(i) => s[..i] + replacement + s[i + |pattern|..]
  }

  /** Replacing the first `" tokens"` of `p + " tokens"` removes exactly the suffix when `p` has no space. */
  lemma ReplaceSuffix(p: string, suffix: string)
    requires |suffix| >= 1 && suffix[0] == ' ' && ' ' !in p
    ensures ReplaceFirst(p + suffix, suffix, "") == p
  {
    var s := p + suffix;
    assert OccursAt(s, suffix, |p|);
    forall j | 0 <= j < |p| ensures !OccursAt(s, suffix, j) {
      assert CharAt(s, j, 0) == p[j];
    }
    var r := IndexOfFrom(s, suffix, 0);
    assert r == Some(|p|);
  }

  /** `s.split(c)` for a one-character separator: the maximal runs between separators. */
  function Split(s: string, c: char): (parts: seq<string>)
    ensures |parts| >= 1
    ensures forall i :: 0 <= i < |parts| ==> c !in parts[i]
    ensures (|parts| == 1) == (c !in s)
    ensures |parts| == 1 ==> parts[0] == s
    decreases |s|
  {
    if s == [] then [[]]
    else
      var rest := Split(s[1..], c);
      if s[0] == c then [[]] + rest else [[s[0]] + rest[0]] + rest[1..]
  }

  /** `parts.join(sep)`. */
  function Join(parts: seq<string>, sep: string): string
  {
    if |parts| == 0 then ""
    else if |parts| == 1 then parts[0]
    else parts[0] + sep + Join(parts[1..], sep)
  }

  /** Splitting and joining with the same separator gives back the string. */
  lemma {:induction false} SplitJoin(s: string, c: char)
    ensures Join(Split(s, c), [c]) == s
    decreases |s|
  {
    if s != [] {
      var rest := Split(s[1..], c);
      SplitJoin(s[1..], c);
      if s[0] != c {
        if |rest| == 1 {
          assert Split(s, c) == [[s[0]] + rest[0]];
        } else {
          assert Join(rest, [c]) == rest[0] + [c] + Join(rest[1..], [c]);
          assert Split(s, c)[1..] == rest[1..];
        }
      }
    }
  }

  /** `s.split(c).pop()`: the text after the last separator. */
  function LastSegment(s: string, c: char): string
  {
    var parts := Split(s, c);
    parts[|parts| - 1]
  }

  /** The last segment is the longest suffix free of the separator. */
  lemma {:induction false} LastSegmentIsSuffix(s: string, c: char)
    ensures var r := LastSegment(s, c);
      c !in r && EndsWith(s, r) && (|r| < |s| ==> s[|s| - |r| - 1] == c)
    decreases |s|
  {
    if s != [] {
      var rest := Split(s[1..], c);
      var r := LastSegment(s, c);
      if s[0] != c && |rest| == 1 {
        assert r == s;
      } else {
        LastSegmentIsSuffix(s[1..], c);
        assert r == LastSegment(s[1..], c);
        assert s[1..][|s| - 1 - |r|..] == s[|s| - |r|..];
        assert |r| == |s| - 1 ==> r == s[1..];
      }
    }
  }

  /** The text after the last separator of `x + [c] + y`, when `y` holds none, is `y`. */
  lemma LastSegmentAfter(x: string, c: char, y: string)
    requires c !in y
    ensures LastSegment(x + [c] + y, c) == y
  {
    var s := x + [c] + y;
    var r := LastSegment(s, c);
    LastSegmentIsSuffix(s, c);
    assert s[|s| - |y|..] == y;
    assert s[|s| - |y| - 1] == c;
    assert |r| == |y|;
  }

  /** `s.split(c)[1]`: the field after the first separator, up to the next one (undefined without one). */
  function SecondField(s: string, c: char): Option<string>
  {
    var parts := Split(s, c);
    if |parts| >= 2 then Some(parts[1]) else None
  }

  /** `toLowerCase` on the ASCII letters (other characters are left unchanged). */
  function Lower(s: string): (r: string)
    ensures |r| == |s|
    ensures forall i :: 0 <= i < |s| ==> r[i] == if 'A' <= s[i] <= 'Z' then (s[i] as int + 32) as char else s[i]
  {
    seq(|s|, i requires 0 <= i < |s| => if 'A' <= s[i] <= 'Z' then (s[i] as int + 32) as char else s[i])
  }
}
