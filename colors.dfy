/** Colour escapes: a "#rrggbb" colour becomes a 24-bit SGR escape for the background (48) or the
    foreground (38), and a background escape can be turned into the matching foreground escape. */
module Colors {
  import opened Wrappers
  import opened Text

  const Esc: char := 27 as char

  // ---------------------------------------------------------------- parseInt(s, 16)

  /** `s.slice(a, b)` for `a <= b`: positions past the end are clamped to the length. */
  function Slice(s: string, a: nat, b: nat): (r: string)
    requires a <= b
    ensures |r| <= b - a
    ensures b <= |s| ==> r == s[a..b]
  {
    var hi := if b < |s| then b else |s|;
    var lo := if a < hi then a else hi;
    s[lo..hi]
  }

  predicate IsHexDigit(c: char) {
    '0' <= c <= '9' || 'a' <= c <= 'f' || 'A' <= c <= 'F'
  }

  function HexValue(c: char): (v: nat)
    requires IsHexDigit(c)
    ensures v < 16
  {
    if '0' <= c <= '9' then c as int - '0' as int
    else if 'a' <= c <= 'f' then c as int - 'a' as int + 10
    else c as int - 'A' as int + 10
  }

  /** The value of a string of hexadecimal digits. */
  function HexDigitsValue(s: string): nat
    requires forall i :: 0 <= i < |s| ==> IsHexDigit(s[i])
  {
    if s == [] then 0 else 16 * HexDigitsValue(s[..|s| - 1]) + HexValue(s[|s| - 1])
  }

  /** The length of the run of hexadecimal digits starting at `i`. */
  function HexRun(s: string, i: nat): (n: nat)
    ensures i + n <= |s| || n == 0
    ensures i + n < |s| ==> !IsHexDigit(s[i + n])
    decreases |s| - i
  {
    if i < |s| && IsHexDigit(s[i]) then 1 + HexRun(s, i + 1) else 0
  }

  /** Every character of the run is a hexadecimal digit. */
  lemma {:induction false} HexRunDigits(s: string, i: nat)
    ensures forall k :: i <= k < i + HexRun(s, i) ==> IsHexDigit(s[k])
    decreases |s| - i
  {
    if HexRun(s, i) > 0 {
      HexRunDigits(s, i + 1);
    }
  }

  /** `parseInt(s, 16)`: leading white space, an optional sign and an optional "0x"/"0X" are skipped,
      then the longest run of hexadecimal digits is read; without any digit the result is NaN (None).
      A negative zero prints as "0", so it is the integer 0 here. */
  function ParseIntHex(s: string): Option<int> {
    var i := SkipWhitespace(s, 0);
    var negative := i < |s| && s[i] == '-';
    var j := if i < |s| && (s[i] == '-' || s[i] == '+') then i + 1 else i;
    var k := if j + 1 < |s| && s[j] == '0' && (s[j + 1] == 'x' || s[j + 1] == 'X') then j + 2 else j;
    var n := HexRun(s, k);
    if n == 0 then None
    else
      HexRunDigits(s, k);
      var v := HexDigitsValue(s[k..k + n]);
      Some(if negative then -(v as int) else v)
  }

  /** Two hexadecimal digits parse to a value from 0 to 255. */
  lemma {:induction false} ParseTwoHexDigits(s: string)
    requires |s| == 2 && IsHexDigit(s[0]) && IsHexDigit(s[1])
    ensures ParseIntHex(s) == Some(16 * HexValue(s[0]) + HexValue(s[1]))
    ensures 0 <= ParseIntHex(s).value <= 255
  {
    assert SkipWhitespace(s, 0) == 0 by {
      assert !IsJsWhitespace(s[0]);
    }
    assert s[0] != '-' && s[0] != '+' && s[1] != 'x' && s[1] != 'X';
    assert HexRun(s, 0) == 2 by {
      assert HexRun(s, 1) == 1;
    }
    assert HexDigitsValue(s) == 16 * HexValue(s[0]) + HexValue(s[1]) by {
      assert s[..1] == [s[0]];
      assert HexDigitsValue([s[0]]) == HexValue(s[0]) by {
        assert [s[0]][..0] == [];
      }
    }
    assert s[..2] == s;
  }

  /** Lower-case hexadecimal digit for a value below 16. */
  function HexDigit(v: nat): (c: char)
    requires v < 16
    ensures IsHexDigit(c) && HexValue(c) == v
  {
    if v < 10 then ('0' as int + v) as char else ('a' as int + v - 10) as char
  }

  /** Two-digit hexadecimal text of a channel value. */
  function ToHex2(v: nat): (s: string)
    requires v <= 255
    ensures |s| == 2 && IsHexDigit(s[0]) && IsHexDigit(s[1])
  {
    [HexDigit(v / 16), HexDigit(v % 16)]
  }

  /** Round trip: a channel written with two hexadecimal digits parses back to itself. */
  lemma {:induction false} ParseToHex2(v: nat)
    requires v <= 255
    ensures ParseIntHex(ToHex2(v)) == Some(v)
  {
    var s := ToHex2(v);
    ParseTwoHexDigits(s);
    assert HexValue(s[0]) == v / 16 && HexValue(s[1]) == v % 16;
    assert 16 * (v / 16) + v % 16 == v;
  }

  // ---------------------------------------------------------------- hexToAnsi

  /** `${n}` of a parsed channel: "NaN" when nothing parsed. */
  function Show(v: Option<int>): (t: string)
    ensures ComponentText(t)
  {
    if v.None? then "NaN" else IntToString(v.value)
  }

  /** What `${n}` can print for a channel: no ';', and either all digits or not starting with one. */
  predicate ComponentText(t: string) {
    |t| >= 1 && ';' !in t && (AllDigits(t) || !IsDigit(t[0]))
  }

  function Channels(hex: string): (Option<int>, Option<int>, Option<int>) {
    (ParseIntHex(Slice(hex, 1, 3)), ParseIntHex(Slice(hex, 3, 5)), ParseIntHex(Slice(hex, 5, 7)))
  }

  /** `hexToAnsi`: the SGR escape `ESC [ 48;2;r;g;b m` (background) or `ESC [ 38;2;r;g;b m`. */
  function HexToAnsi(hex: string, isBackground: bool): string {
    var (r, g, b) := Channels(hex);
    [Esc] + "[" + (if isBackground then "48" else "38") + ";2;" + Show(r) + ";" + Show(g) + ";" + Show(b) + "m"
  }

  predicate WellFormedHex(hex: string) {
    && |hex| == 7 && hex[0] == '#'
    && IsHexDigit(hex[1]) && IsHexDigit(hex[2]) && IsHexDigit(hex[3])
    && IsHexDigit(hex[4]) && IsHexDigit(hex[5]) && IsHexDigit(hex[6])
  }

  /** A well-formed "#rrggbb" gives three channels from 0 to 255, each the value of its two digits. */
  lemma {:induction false} WellFormedChannels(hex: string)
    requires WellFormedHex(hex)
    ensures Channels(hex) == (Some(16 * HexValue(hex[1]) + HexValue(hex[2])),
                              Some(16 * HexValue(hex[3]) + HexValue(hex[4])),
                              Some(16 * HexValue(hex[5]) + HexValue(hex[6])))
    ensures 0 <= Channels(hex).0.value <= 255 && 0 <= Channels(hex).1.value <= 255 && 0 <= Channels(hex).2.value <= 255
  {
    var r := 16 * HexValue(hex[1]) + HexValue(hex[2]);
    var g := 16 * HexValue(hex[3]) + HexValue(hex[4]);
    var b := 16 * HexValue(hex[5]) + HexValue(hex[6]);
    ChannelAt(hex, 1, 2, 3);
    ChannelAt(hex, 3, 4, 5);
    ChannelAt(hex, 5, 6, 7);
    ChannelsOf(hex, r, g, b);
  }

  /** `Channels` once the three pairs of hex digits have been read. */
  lemma {:induction false} ChannelsOf(hex: string, r: int, g: int, b: int)
    requires ParseIntHex(Slice(hex, 1, 3)) == Some(r)
    requires ParseIntHex(Slice(hex, 3, 5)) == Some(g)
    requires ParseIntHex(Slice(hex, 5, 7)) == Some(b)
    ensures Channels(hex) == (Some(r), Some(g), Some(b))
    ensures Channels(hex).0.value == r && Channels(hex).1.value == g && Channels(hex).2.value == b
  {
  }

  /** The channel whose two digits are at `a` and `a + 1`. */
  lemma {:induction false} ChannelAt(hex: string, a: nat, a1: nat, b: nat)
    requires a1 == a + 1 && b == a + 2 <= |hex| && IsHexDigit(hex[a]) && IsHexDigit(hex[a1])
    ensures ParseIntHex(Slice(hex, a, b)) == Some(16 * HexValue(hex[a]) + HexValue(hex[a1]))
    ensures 16 * HexValue(hex[a]) + HexValue(hex[a1]) <= 255
  {
    var s := Slice(hex, a, b);
    assert s == hex[a..a + 2];
    assert s[0] == hex[a] && s[1] == hex[a + 1];
    ParseTwoHexDigits(s);
  }

  /** The colour written from three channel values turns into an escape with exactly those values. */
  lemma {:induction false} HexToAnsiOfChannels(r: nat, g: nat, b: nat, isBackground: bool)
    requires r <= 255 && g <= 255 && b <= 255
    ensures HexToAnsi("#" + ToHex2(r) + ToHex2(g) + ToHex2(b), isBackground)
      == [Esc] + "[" + (if isBackground then "48" else "38") + ";2;"
         + NatToString(r) + ";" + NatToString(g) + ";" + NatToString(b) + "m"
  {
    var hex := "#" + ToHex2(r) + ToHex2(g) + ToHex2(b);
    assert Slice(hex, 1, 3) == ToHex2(r);
    assert Slice(hex, 3, 5) == ToHex2(g);
    assert Slice(hex, 5, 7) == ToHex2(b);
    ParseToHex2(r);
    ParseToHex2(g);
    ParseToHex2(b);
  }

  // ---------------------------------------------------------------- extractBgToFg

  datatype Groups = Groups(g1: string, g2: string, g3: string)

  /** `(\d+);` at `a`: the length of the group. A `\d+` followed by ';' can only be the whole digit
      run, since ';' is not a digit, so backtracking never finds a shorter group. */
  function GroupThenSemicolon(s: string, a: nat): (la: Option<nat>)
    ensures la.Some? ==> la.value >= 1 && a + la.value < |s| && s[a + la.value] == ';' && la.value == DigitRun(s, a)
  {
    var n := DigitRun(s, a);
    if n == 0 || a + n >= |s| || s[a + n] != ';' then None else Some(n)
  }

  /** The lengths of the three groups of a match. */
  datatype Spans = Spans(la: nat, lb: nat, lc: nat)

  /** `/48;2;(\d+);(\d+);(\d+)/` anchored at `i`, as the lengths of its groups; the last group is greedy
      and takes the whole run. */
  function MatchSpans(s: string, i: nat): (r: Option<Spans>)
    ensures r.Some? ==> i + 7 + r.value.la + r.value.lb + r.value.lc <= |s|
  {
    if !OccursAt(s, "48;2;", i) then None
    else
      match GroupThenSemicolon(s, i + 5)
      case None => None
      case Some(la) =>
        match GroupThenSemicolon(s, i + 6 + la)
        case None => None
        case Some(lb) =>
          if DigitRun(s, i + 7 + la + lb) == 0 then None else Some(Spans(la, lb, DigitRun(s, i + 7 + la + lb)))
  }

  /** The text of the groups whose lengths are `p`, for a match at `i`. */
  function GroupsAt(s: string, i: nat, p: Spans): Groups
    requires i + 7 + p.la + p.lb + p.lc <= |s|
  {
    Groups(s[i + 5..i + 5 + p.la], s[i + 6 + p.la..i + 6 + p.la + p.lb], s[i + 7 + p.la + p.lb..i + 7 + p.la + p.lb + p.lc])
  }

  /** `/48;2;(\d+);(\d+);(\d+)/` anchored at `i`. */
  function MatchAt(s: string, i: nat): Option<Groups> {
    match MatchSpans(s, i)
    case None => None
    case Some(p) => Some(GroupsAt(s, i, p))
  }

  /** `s.match(regex)` without the global flag: the leftmost position at which the pattern matches. */
  function Search(s: string, from: nat): Option<Groups>
    decreases |s| - from
  {
    if from > |s| then None
    else if MatchAt(s, from).Some? then MatchAt(s, from)
    else Search(s, from + 1)
  }

  /** The text a match with groups `x`, `y` and `z` covers. */
  function PatternText(x: string, y: string, z: string): string {
    "48;2;" + x + ";" + y + ";" + z
  }

  /** The groups are non-empty runs of digits that, with the pattern's separators between them, occur
      in `s` at `i`. */
  predicate SoundGroups(s: string, i: nat, m: Groups) {
    && AllDigits(m.g1) && AllDigits(m.g2) && AllDigits(m.g3)
    && |m.g1| >= 1 && |m.g2| >= 1 && |m.g3| >= 1
    && OccursAt(s, PatternText(m.g1, m.g2, m.g3), i)
  }

  /** A match is the pattern's text with three non-empty digit groups. */
  lemma {:induction false} MatchAtSound(s: string, i: nat)
    requires MatchAt(s, i).Some?
    ensures SoundGroups(s, i, MatchAt(s, i).value)
  {
    MatchAtSoundOf(s, i, GroupThenSemicolon(s, i + 5).value);
  }

  /** `MatchAtSound` once the first group's length is known. */
  lemma {:induction false} MatchAtSoundOf(s: string, i: nat, la: nat)
    requires MatchAt(s, i).Some? && GroupThenSemicolon(s, i + 5) == Some(la)
    ensures SoundGroups(s, i, MatchAt(s, i).value)
  {
    MatchAtOf(s, i, la, GroupThenSemicolon(s, i + 6 + la).value);
    GroupsSound(s, i, la, GroupThenSemicolon(s, i + 6 + la).value);
  }

  /** The groups read at their offsets are digits, and with the pattern's separators they make an
      occurrence of the pattern's text. */
  lemma {:induction false} GroupsSound(s: string, i: nat, la: nat, lb: nat)
    requires OccursAt(s, "48;2;", i)
    requires GroupThenSemicolon(s, i + 5) == Some(la)
    requires GroupThenSemicolon(s, i + 6 + la) == Some(lb)
    requires DigitRun(s, i + 7 + la + lb) >= 1
    ensures SoundGroups(s, i, GroupsAt(s, i, Spans(la, lb, DigitRun(s, i + 7 + la + lb))))
  {
    GroupsDigits(s, i, la, lb);
    GroupsOccur(s, i, la, lb);
  }

  /** The groups read at their spans are non-empty runs of digits. */
  lemma {:induction false} GroupsDigits(s: string, i: nat, la: nat, lb: nat)
    requires GroupThenSemicolon(s, i + 5) == Some(la)
    requires GroupThenSemicolon(s, i + 6 + la) == Some(lb)
    requires DigitRun(s, i + 7 + la + lb) >= 1
    ensures var m := GroupsAt(s, i, Spans(la, lb, DigitRun(s, i + 7 + la + lb)));
      AllDigits(m.g1) && AllDigits(m.g2) && AllDigits(m.g3) && |m.g1| >= 1 && |m.g2| >= 1 && |m.g3| >= 1
  {
    GroupDigits(s, i + 5, la);
    GroupDigits(s, i + 6 + la, lb);
    DigitRunDigits(s, i + 7 + la + lb);
  }

  /** A `(\d+);` group is a non-empty run of digits followed by ';'. */
  lemma {:induction false} GroupDigits(s: string, a: nat, n: nat)
    requires GroupThenSemicolon(s, a) == Some(n)
    ensures a + n < |s| && s[a + n] == ';' && n >= 1 && AllDigits(s[a..a + n])
  {
    DigitRunDigits(s, a);
  }

  /** The groups read at their spans, with the pattern's separators, occur at `i`. */
  lemma {:induction false} GroupsOccur(s: string, i: nat, la: nat, lb: nat)
    requires OccursAt(s, "48;2;", i)
    requires GroupThenSemicolon(s, i + 5) == Some(la)
    requires GroupThenSemicolon(s, i + 6 + la) == Some(lb)
    requires DigitRun(s, i + 7 + la + lb) >= 1
    ensures var m := GroupsAt(s, i, Spans(la, lb, DigitRun(s, i + 7 + la + lb)));
      OccursAt(s, PatternText(m.g1, m.g2, m.g3), i)
  {
    SemicolonOccurs(s, i + 5 + la);
    SemicolonOccurs(s, i + 6 + la + lb);
    PatternOfSpans(s, i, la, lb, DigitRun(s, i + 7 + la + lb));
  }

  /** A ';' of `s` is an occurrence of ";". */
  lemma {:induction false} SemicolonOccurs(s: string, a: nat)
    requires a < |s| && s[a] == ';'
    ensures OccursAt(s, ";", a)
  {
    assert CharAt(s, a, 0) == ";"[0];
  }

  /** Text read at spans separated by ';' makes, behind the pattern's prefix, an occurrence. */
  lemma {:induction false} PatternOfSpans(s: string, i: nat, la: nat, lb: nat, lc: nat)
    requires OccursAt(s, "48;2;", i)
    requires i + 7 + la + lb + lc <= |s| && OccursAt(s, ";", i + 5 + la) && OccursAt(s, ";", i + 6 + la + lb)
    ensures var m := GroupsAt(s, i, Spans(la, lb, lc));
      OccursAt(s, PatternText(m.g1, m.g2, m.g3), i)
  {
    OccursSlice(s, i + 5, i + 5 + la);
    OccursSlice(s, i + 6 + la, i + 6 + la + lb);
    OccursSlice(s, i + 7 + la + lb, i + 7 + la + lb + lc);
    PatternOfParts(s, i, s[i + 5..i + 5 + la], s[i + 6 + la..i + 6 + la + lb], s[i + 7 + la + lb..i + 7 + la + lb + lc],
      la, lb);
  }

  /** Pieces of the pattern's text at their offsets make an occurrence of the whole text. */
  lemma {:induction false} PatternOfParts(s: string, i: nat, x: string, y: string, z: string, la: nat, lb: nat)
    requires |x| == la && |y| == lb
    requires OccursAt(s, "48;2;", i) && OccursAt(s, x, i + 5) && OccursAt(s, y, i + 6 + la)
    requires OccursAt(s, z, i + 7 + la + lb)
    requires OccursAt(s, ";", i + 5 + la) && OccursAt(s, ";", i + 6 + la + lb)
    ensures OccursAt(s, PatternText(x, y, z), i)
  {
    OccursConcat(s, "48;2;", x, i);
    OccursConcat(s, "48;2;" + x, ";", i);
    OccursConcat(s, "48;2;" + x + ";", y, i);
    OccursConcat(s, "48;2;" + x + ";" + y, ";", i);
    OccursConcat(s, "48;2;" + x + ";" + y + ";", z, i);
  }

  /** Every occurrence of the pattern's text is found, with the same first two groups and a third that
      extends the occurrence's (greedy) group. */
  lemma {:induction false} MatchAtComplete(s: string, i: nat, x: string, y: string, z: string)
    requires |x| >= 1 && |y| >= 1 && |z| >= 1 && AllDigits(x) && AllDigits(y) && AllDigits(z)
    requires OccursAt(s, PatternText(x, y, z), i)
    ensures var c := i + 7 + |x| + |y|;
      && DigitRun(s, c) >= |z| && s[c..c + |z|] == z
      && MatchAt(s, i) == Some(Groups(x, y, s[c..c + DigitRun(s, c)]))
  {
    PatternParts(s, i, x, y, z);
    MatchAtOfParts(s, i, x, y, z);
  }

  /** `MatchAt` from the pieces of an occurrence, each at its offset. */
  lemma {:induction false} MatchAtOfParts(s: string, i: nat, x: string, y: string, z: string)
    requires |x| >= 1 && |y| >= 1 && |z| >= 1 && AllDigits(x) && AllDigits(y) && AllDigits(z)
    requires OccursAt(s, "48;2;", i) && OccursAt(s, x, i + 5) && OccursAt(s, y, i + 6 + |x|)
    requires OccursAt(s, z, i + 7 + |x| + |y|)
    requires s[i + 5 + |x|] == ';' && s[i + 6 + |x| + |y|] == ';'
    ensures DigitRun(s, i + 7 + |x| + |y|) >= |z| && s[i + 7 + |x| + |y|..i + 7 + |x| + |y| + |z|] == z
    ensures MatchAt(s, i)
      == Some(Groups(x, y, s[i + 7 + |x| + |y|..i + 7 + |x| + |y| + DigitRun(s, i + 7 + |x| + |y|)]))
  {
    GroupOf(s, i + 5, x);
    GroupOf(s, i + 6 + |x|, y);
    DigitRunCovers(s, i + 7 + |x| + |y|, z);
    OccursAtSlice(s, z, i + 7 + |x| + |y|);
    MatchAtOf(s, i, |x|, |y|);
    GroupsAtText(s, i, x, y, DigitRun(s, i + 7 + |x| + |y|));
  }

  /** The first two groups, read at their spans, are the text that occurs there. */
  lemma {:induction false} GroupsAtText(s: string, i: nat, x: string, y: string, lc: nat)
    requires i + 7 + |x| + |y| + lc <= |s|
    requires OccursAt(s, x, i + 5) && OccursAt(s, y, i + 6 + |x|)
    ensures GroupsAt(s, i, Spans(|x|, |y|, lc)) == Groups(x, y, s[i + 7 + |x| + |y|..i + 7 + |x| + |y| + lc])
  {
    OccursAtSlice(s, x, i + 5);
    OccursAtSlice(s, y, i + 6 + |x|);
  }

  /** When the occurrence's last group stops at a non-digit, the match's groups are exactly the
      occurrence's. */
  lemma {:induction false} MatchAtExact(s: string, i: nat, x: string, y: string, z: string)
    requires |x| >= 1 && |y| >= 1 && |z| >= 1 && AllDigits(x) && AllDigits(y) && AllDigits(z)
    requires OccursAt(s, PatternText(x, y, z), i)
    requires var e := i + 7 + |x| + |y| + |z|; e < |s| && !IsDigit(s[e])
    ensures MatchAt(s, i) == Some(Groups(x, y, z))
  {
    PatternParts(s, i, x, y, z);
    MatchAtExactParts(s, i, x, y, z);
  }

  /** `MatchAtExact` from the pieces of the occurrence. */
  lemma {:induction false} MatchAtExactParts(s: string, i: nat, x: string, y: string, z: string)
    requires |x| >= 1 && |y| >= 1 && |z| >= 1 && AllDigits(x) && AllDigits(y) && AllDigits(z)
    requires OccursAt(s, "48;2;", i) && OccursAt(s, x, i + 5) && OccursAt(s, y, i + 6 + |x|)
    requires OccursAt(s, z, i + 7 + |x| + |y|)
    requires s[i + 5 + |x|] == ';' && s[i + 6 + |x| + |y|] == ';'
    requires var e := i + 7 + |x| + |y| + |z|; e < |s| && !IsDigit(s[e])
    ensures MatchAt(s, i) == Some(Groups(x, y, z))
  {
    MatchAtOfParts(s, i, x, y, z);
    DigitRunOf(s, i + 7 + |x| + |y|, z);
  }

  /** `MatchAt` once its two `(\d+);` groups and a non-empty last run are known. */
  lemma {:induction false} MatchAtOf(s: string, i: nat, la: nat, lb: nat)
    requires OccursAt(s, "48;2;", i)
    requires GroupThenSemicolon(s, i + 5) == Some(la)
    requires GroupThenSemicolon(s, i + 6 + la) == Some(lb)
    requires DigitRun(s, i + 7 + la + lb) >= 1
    ensures MatchAt(s, i) == Some(GroupsAt(s, i, Spans(la, lb, DigitRun(s, i + 7 + la + lb))))
  {
    MatchSpansOf(s, i, la, lb);
  }

  /** `MatchSpans` once its two `(\d+);` groups and a non-empty last run are known. */
  lemma {:induction false} MatchSpansOf(s: string, i: nat, la: nat, lb: nat)
    requires OccursAt(s, "48;2;", i)
    requires GroupThenSemicolon(s, i + 5) == Some(la)
    requires GroupThenSemicolon(s, i + 6 + la) == Some(lb)
    requires DigitRun(s, i + 7 + la + lb) >= 1
    ensures MatchSpans(s, i) == Some(Spans(la, lb, DigitRun(s, i + 7 + la + lb)))
  {
  }

  /** A run of digits followed by ';' is a `(\d+);` group. */
  lemma {:induction false} GroupOf(s: string, a: nat, x: string)
    requires |x| >= 1 && AllDigits(x) && OccursAt(s, x, a) && a + |x| < |s| && s[a + |x|] == ';'
    ensures GroupThenSemicolon(s, a) == Some(|x|)
  {
    DigitRunOf(s, a, x);
  }

  /** The pieces of an occurrence of the pattern's text, at their offsets. */
  lemma {:induction false} PatternParts(s: string, i: nat, x: string, y: string, z: string)
    requires OccursAt(s, PatternText(x, y, z), i)
    ensures OccursAt(s, "48;2;", i) && OccursAt(s, x, i + 5) && OccursAt(s, y, i + 6 + |x|)
      && OccursAt(s, z, i + 7 + |x| + |y|)
    ensures i + 7 + |x| + |y| <= |s| && s[i + 5 + |x|] == ';' && s[i + 6 + |x| + |y|] == ';'
  {
    OccursSplit(s, "48;2;" + x + ";" + y + ";", z, i);
    OccursSplit(s, "48;2;" + x + ";" + y, ";", i);
    OccursSplit(s, "48;2;" + x + ";", y, i);
    OccursSplit(s, "48;2;" + x, ";", i);
    OccursSplit(s, "48;2;", x, i);
    OccursChar(s, ";", i + 5 + |x|, 0);
    OccursChar(s, ";", i + 6 + |x| + |y|, 0);
  }

  /** A digit run that stops at a non-digit is exactly that run. */
  lemma {:induction false} DigitRunOf(s: string, i: nat, x: string)
    requires AllDigits(x) && OccursAt(s, x, i) && i + |x| < |s| && !IsDigit(s[i + |x|])
    ensures DigitRun(s, i) == |x|
    decreases |x|
  {
    if |x| > 0 {
      OccursSplit(s, [x[0]], x[1..], i);
      assert [x[0]] + x[1..] == x;
      OccursChar(s, x, i, 0);
      DigitRunOf(s, i + 1, x[1..]);
    }
  }

  /** A digit run is at least as long as any run of digits at its start. */
  lemma {:induction false} DigitRunCovers(s: string, i: nat, x: string)
    requires AllDigits(x) && OccursAt(s, x, i)
    ensures DigitRun(s, i) >= |x|
    decreases |x|
  {
    if |x| > 0 {
      assert [x[0]] + x[1..] == x;
      OccursSplit(s, [x[0]], x[1..], i);
      OccursChar(s, x, i, 0);
      DigitRunCovers(s, i + 1, x[1..]);
    }
  }

  /** `extractBgToFg`: the foreground escape built from the first match, or else the first "48"
      replaced by "38". */
  function ExtractBgToFg(ansiCode: string): string {
    match Search(ansiCode, 0)
    case Some(m) => [Esc] + "[38;2;" + m.g1 + ";" + m.g2 + ";" + m.g3 + "m"
    case None => ReplaceFirst(ansiCode, "48", "38")
  }

  /** Round trip: the foreground escape extracted from the background escape of any colour string is
      the foreground escape of the same string. With numeric channels the pattern matches; with a
      "NaN" or negative channel it cannot match anywhere and the "48" of the prefix is the first one. */
  lemma {:induction false} ExtractOfBackground(hex: string)
    ensures ExtractBgToFg(HexToAnsi(hex, true)) == HexToAnsi(hex, false)
  {
    var (r, g, b) := Channels(hex);
    EscapeText(hex);
    ExtractOfEscape(Show(r), Show(g), Show(b));
  }

  /** `ExtractOfBackground` for any printed channels. */
  lemma {:induction false} ExtractOfEscape(R: string, G: string, B: string)
    requires ComponentText(R) && ComponentText(G) && ComponentText(B)
    ensures ExtractBgToFg([Esc] + "[48;2;" + R + ";" + G + ";" + B + "m")
      == [Esc] + "[38;2;" + R + ";" + G + ";" + B + "m"
  {
    var s := [Esc] + "[48;2;" + R + ";" + G + ";" + B + "m";
    if AllDigits(R) && AllDigits(G) && AllDigits(B) {
      BackgroundLayout(s, R, G, B);
      BackgroundMatches(s, R, G, B);
    } else {
      BackgroundFallsBack(s, R, G, B);
      FirstFortyEight(s);
      SwapCode(R, G, B);
    }
  }

  /** The two escapes `hexToAnsi` builds, written out from the channels. */
  lemma {:induction false} EscapeText(hex: string)
    ensures var (r, g, b) := Channels(hex);
      && HexToAnsi(hex, true) == [Esc] + "[48;2;" + Show(r) + ";" + Show(g) + ";" + Show(b) + "m"
      && HexToAnsi(hex, false) == [Esc] + "[38;2;" + Show(r) + ";" + Show(g) + ";" + Show(b) + "m"
  {
    assert [Esc] + "[" + "48" + ";2;" == [Esc] + "[48;2;";
    assert [Esc] + "[" + "38" + ";2;" == [Esc] + "[38;2;";
  }

  /** Replacing the "48" at position 2 of a background escape gives the foreground escape. */
  lemma {:induction false} SwapCode(R: string, G: string, B: string)
    ensures var s := [Esc] + "[48;2;" + R + ";" + G + ";" + B + "m";
      s[..2] + "38" + s[4..] == [Esc] + "[38;2;" + R + ";" + G + ";" + B + "m"
  {
    var tail := ";2;" + (R + (";" + (G + (";" + (B + "m")))));
    assert [Esc] + "[48;2;" + R + ";" + G + ";" + B + "m" == [Esc, '[', '4', '8'] + tail;
    assert [Esc] + "[38;2;" + R + ";" + G + ";" + B + "m" == [Esc, '[', '3', '8'] + tail;
    SwapHead(tail);
  }

  /** Replacing the "48" after `ESC [` by "38" keeps the rest of the escape. */
  lemma {:induction false} SwapHead(tail: string)
    ensures var s := [Esc, '[', '4', '8'] + tail; s[..2] + "38" + s[4..] == [Esc, '[', '3', '8'] + tail
  {
    var s := [Esc, '[', '4', '8'] + tail;
    assert s[..2] == [Esc, '['] && s[4..] == tail;
  }

  /** Where the pieces of a background escape sit. */
  lemma {:induction false} BackgroundLayout(s: string, R: string, G: string, B: string)
    requires s == [Esc] + "[48;2;" + R + ";" + G + ";" + B + "m"
    ensures |s| >= 2 && s[0] == Esc && s[1] == '['
    ensures OccursAt(s, PatternText(R, G, B), 2)
    ensures 9 + |R| + |G| + |B| < |s| && s[9 + |R| + |G| + |B|] == 'm'
  {
    var t := "48;2;" + R + ";" + G + ";" + B;
    assert s == [Esc, '['] + t + "m";
    assert s[2..2 + |t|] == t;
  }

  /** With numeric channels the match is at the prefix and its groups are the channels. */
  lemma {:induction false} BackgroundMatches(s: string, R: string, G: string, B: string)
    requires |R| >= 1 && |G| >= 1 && |B| >= 1 && AllDigits(R) && AllDigits(G) && AllDigits(B)
    requires |s| >= 2 && s[0] == Esc && s[1] == '['
    requires OccursAt(s, PatternText(R, G, B), 2)
    requires 9 + |R| + |G| + |B| < |s| && s[9 + |R| + |G| + |B|] == 'm'
    ensures Search(s, 0) == Some(Groups(R, G, B))
  {
    MatchAtExact(s, 2, R, G, B);
    NoMatchBefore(s);
  }

  /** With a channel that is not all digits nothing matches. */
  lemma {:induction false} BackgroundFallsBack(s: string, R: string, G: string, B: string)
    requires ComponentText(R) && ComponentText(G) && ComponentText(B)
    requires !(AllDigits(R) && AllDigits(G) && AllDigits(B))
    requires s == [Esc] + "[48;2;" + R + ";" + G + ";" + B + "m"
    ensures Search(s, 0) == None
  {
    NoMatchBefore(s);
    NoMatchAfter(s, R, G, B);
    SearchNone(s, 2);
  }

  /** Positions 0 and 1 of an escape hold ESC and '[', so no match starts there. */
  lemma {:induction false} NoMatchBefore(s: string)
    requires |s| >= 2 && s[0] == Esc && s[1] == '['
    ensures Search(s, 0) == Search(s, 2)
  {
    assert !OccursAt(s, "48;2;", 0) by { assert CharAt(s, 0, 0) != "48;2;"[0]; }
    assert !OccursAt(s, "48;2;", 1) by { assert CharAt(s, 1, 0) != "48;2;"[0]; }
  }

  /** With no match anywhere from `from` on, the search finds nothing. */
  lemma {:induction false} SearchNone(s: string, from: nat)
    requires forall j :: from <= j ==> MatchAt(s, j).None?
    ensures Search(s, from) == None
    decreases |s| - from
  {
    if from <= |s| {
      SearchNone(s, from + 1);
    }
  }

  /** With a channel that is not all digits, the background escape matches nowhere from position 2 on:
      at 2 the first such channel stops the match; at 3 to 6 there is no '4'; from 7 on there are only
      two ';' left, and a match needs four. */
  lemma {:induction false} NoMatchAfter(s: string, R: string, G: string, B: string)
    requires ComponentText(R) && ComponentText(G) && ComponentText(B)
    requires !(AllDigits(R) && AllDigits(G) && AllDigits(B))
    requires s == [Esc] + "[48;2;" + R + ";" + G + ";" + B + "m"
    ensures forall j :: 2 <= j ==> MatchAt(s, j).None?
  {
    SemicolonsAfterPrefix(s, R, G, B);
    assert s[3] == '8' && s[4] == ';' && s[5] == '2' && s[6] == ';';
    forall j | 2 <= j
      ensures MatchAt(s, j).None?
    {
      if j == 2 {
        NoMatchAtPrefix(s, R, G, B);
      } else if j < 7 {
        NoMatchInsidePrefix(s, j);
      } else {
        NoMatchAfterPrefix(s, j, 7 + |R|, 8 + |R| + |G|);
      }
    }
  }

  /** Positions 3 to 6 of the escape hold "8;2;", so no match starts there. */
  lemma {:induction false} NoMatchInsidePrefix(s: string, j: nat)
    requires 3 <= j < 7 <= |s| && s[3] == '8' && s[4] == ';' && s[5] == '2' && s[6] == ';'
    ensures MatchAt(s, j).None?
  {
    assert !OccursAt(s, "48;2;", j) by { assert CharAt(s, j, 0) != "48;2;"[0]; }
  }

  /** Where only two ';' are left, at `p` and `q`, a match (which needs four) cannot start. */
  lemma {:induction false} NoMatchAfterPrefix(s: string, j: nat, p: nat, q: nat)
    requires 7 <= j && p < q
    requires forall k :: 7 <= k < |s| && s[k] == ';' ==> k == p || k == q
    ensures MatchAt(s, j).None?
  {
    if OccursAt(s, "48;2;", j) {
      OccursChar(s, "48;2;", j, 2);
      OccursChar(s, "48;2;", j, 4);
      assert GroupThenSemicolon(s, j + 5).None?;
    }
  }

  /** After the seven-character prefix, ';' only separates the channels. */
  lemma {:induction false} SemicolonsAfterPrefix(s: string, R: string, G: string, B: string)
    requires ';' !in R && ';' !in G && ';' !in B
    requires s == [Esc] + "[48;2;" + R + ";" + G + ";" + B + "m"
    ensures forall k :: 7 <= k < |s| && s[k] == ';' ==> k == 7 + |R| || k == 8 + |R| + |G|
  {
  }

  /** At the prefix itself, the first channel that is not all digits stops the match. */
  lemma {:induction false} NoMatchAtPrefix(s: string, R: string, G: string, B: string)
    requires ComponentText(R) && ComponentText(G) && ComponentText(B)
    requires !(AllDigits(R) && AllDigits(G) && AllDigits(B))
    requires s == [Esc] + "[48;2;" + R + ";" + G + ";" + B + "m"
    ensures MatchAt(s, 2).None?
  {
    EscapeLayout(s, R, G, B);
    NoMatchOfLayout(s, R, G, B);
  }

  /** Where the channels and their separators sit in the background escape. */
  lemma {:induction false} EscapeLayout(s: string, R: string, G: string, B: string)
    requires s == [Esc] + "[48;2;" + R + ";" + G + ";" + B + "m"
    ensures OccursAt(s, R, 7) && 7 + |R| < |s| && s[7 + |R|] == ';'
    ensures OccursAt(s, G, 8 + |R|) && 8 + |R| + |G| < |s| && s[8 + |R| + |G|] == ';'
    ensures OccursAt(s, B, 9 + |R| + |G|) && 9 + |R| + |G| + |B| < |s|
  {
  }

  /** The case analysis of `NoMatchAtPrefix` on the layout alone: the first channel that is not all
      digits starts with a non-digit, which ends the match. */
  lemma {:induction false} NoMatchOfLayout(s: string, R: string, G: string, B: string)
    requires ComponentText(R) && ComponentText(G) && ComponentText(B)
    requires !(AllDigits(R) && AllDigits(G) && AllDigits(B))
    requires OccursAt(s, R, 7) && 7 + |R| < |s| && s[7 + |R|] == ';'
    requires OccursAt(s, G, 8 + |R|) && 8 + |R| + |G| < |s| && s[8 + |R| + |G|] == ';'
    requires OccursAt(s, B, 9 + |R| + |G|) && 9 + |R| + |G| + |B| < |s|
    ensures MatchAt(s, 2).None?
  {
    if !AllDigits(R) {
      OccursChar(s, R, 7, 0);
    } else {
      DigitRunOf(s, 7, R);
      if !AllDigits(G) {
        OccursChar(s, G, 8 + |R|, 0);
      } else {
        DigitRunOf(s, 8 + |R|, G);
        OccursChar(s, B, 9 + |R| + |G|, 0);
      }
    }
  }

  /** The first "48" of an escape `ESC [ 48 ...` is at position 2. */
  lemma {:induction false} FirstFortyEight(s: string)
    requires |s| >= 4 && s[0] == Esc && s[1] == '[' && s[2] == '4' && s[3] == '8'
    ensures ReplaceFirst(s, "48", "38") == s[..2] + "38" + s[4..]
  {
    assert !OccursAt(s, "48", 0) by { assert CharAt(s, 0, 0) != "48"[0]; }
    assert !OccursAt(s, "48", 1) by { assert CharAt(s, 1, 0) != "48"[0]; }
    assert OccursAt(s, "48", 2);
    assert IndexOfFrom(s, "48", 1) == Some(2);
    assert IndexOfFrom(s, "48", 0) == Some(2);
  }
}
