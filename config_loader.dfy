/** Configuration loading: the recursive merge of JSON-like trees, the overrides read from the
    environment and the command line, and the order in which defaults, the configuration file, the
    environment and the command line are applied. */
module ConfigLoader {
  import opened Wrappers
  import opened Text

  /** A JSON-like value as the loader sees it. `Undefined` is a property whose value is `undefined`;
      numbers are exact. */
  datatype Json =
    | Undefined
    | Null
    | Bool(b: bool)
    | Num(n: real)
    | Str(s: string)
    | Arr(items: seq<Json>)
    | Obj(members: seq<Member>)

  /** An object's property, in insertion order. */
  datatype Member = Member(key: string, value: Json)

  // ---------------------------------------------------------------- sizes (termination of the merge)

  function Size(j: Json): (n: nat)
    ensures n >= 1
  {
    match j
    case Arr(items) => 1 + ItemsSize(items)
    case Obj(ms) => 1 + MembersSize(ms)
    case _ => 1
  }

  function ItemsSize(items: seq<Json>): nat {
    if items == [] then 0
    else
      var last := items[|items| - 1];
      assert last in items;
      ItemsSize(items[..|items| - 1]) + Size(last)
  }

  function MembersSize(ms: seq<Member>): nat {
    if ms == [] then 0
    else
      var last := ms[|ms| - 1];
      assert last in ms;
      MembersSize(ms[..|ms| - 1]) + Size(last.value)
  }

  lemma {:induction false} ItemSmaller(items: seq<Json>, i: nat)
    requires i < |items|
    ensures Size(items[i]) <= ItemsSize(items)
    decreases |items|
  {
    if i < |items| - 1 {
      ItemSmaller(items[..|items| - 1], i);
    }
  }

  lemma {:induction false} MemberSmaller(ms: seq<Member>, i: nat)
    requires i < |ms|
    ensures Size(ms[i].value) <= MembersSize(ms)
    decreases |ms|
  {
    if i < |ms| - 1 {
      MemberSmaller(ms[..|ms| - 1], i);
    }
  }

  // ---------------------------------------------------------------- objects

  function Keys(ms: seq<Member>): (keys: seq<string>)
    ensures |keys| == |ms| && forall i :: 0 <= i < |ms| ==> keys[i] == ms[i].key
  {
    seq(|ms|, i requires 0 <= i < |ms| => ms[i].key)
  }

  /** A JavaScript object never holds two properties with the same key. */
  predicate UniqueKeys(ms: seq<Member>) {
    forall i, j :: 0 <= i < j < |ms| ==> ms[i].key != ms[j].key
  }

  /** `obj[key]`: the value of the first member with that key; None is `undefined` (an absent key). */
  function Get(ms: seq<Member>, key: string): Option<Json> {
    if ms == [] then None
    else if ms[0].key == key then Some(ms[0].value)
    else Get(ms[1..], key)
  }

  /** A key reads as present exactly when some member has it. */
  lemma {:induction false} GetFindsKeys(ms: seq<Member>, key: string)
    ensures Get(ms, key).Some? <==> key in Keys(ms)
  {
    if ms != [] {
      assert Keys(ms) == [ms[0].key] + Keys(ms[1..]);
      GetFindsKeys(ms[1..], key);
    }
  }

  /** `obj[key] = value`: an existing member keeps its place, a new key goes last. */
  function Put(ms: seq<Member>, key: string, value: Json): (r: seq<Member>)
    ensures Get(r, key) == Some(value)
  {
    if ms == [] then [Member(key, value)]
    else if ms[0].key == key then [Member(key, value)] + ms[1..]
    else [ms[0]] + Put(ms[1..], key, value)
  }

  /** Putting a key changes no other key. */
  lemma {:induction false} PutOther(ms: seq<Member>, key: string, value: Json, k: string)
    requires k != key
    ensures Get(Put(ms, key, value), k) == Get(ms, k)
  {
    if ms != [] && ms[0].key != key {
      PutOther(ms[1..], key, value, k);
    }
  }

  /** An existing key keeps its place; a new key goes last. */
  lemma {:induction false} PutKeys(ms: seq<Member>, key: string, value: Json)
    ensures Keys(Put(ms, key, value)) == if key in Keys(ms) then Keys(ms) else Keys(ms) + [key]
  {
    if ms != [] {
      var rest := Keys(ms[1..]);
      KeysCons(ms[0], ms[1..]);
      assert ms == [ms[0]] + ms[1..];
      if ms[0].key == key {
        KeysCons(Member(key, value), ms[1..]);
      } else {
        var tail := Put(ms[1..], key, value);
        PutKeys(ms[1..], key, value);
        KeysCons(ms[0], tail);
        assert key in Keys(ms) <==> key in rest;
        if key !in rest {
          assert [ms[0].key] + (rest + [key]) == ([ms[0].key] + rest) + [key];
        }
      }
    }
  }

  /** The keys of a member list, one member at a time. */
  lemma KeysCons(m: Member, ms: seq<Member>)
    ensures Keys([m] + ms) == [m.key] + Keys(ms)
  {
    var l, r := Keys([m] + ms), [m.key] + Keys(ms);
    forall i | 0 <= i < |l| ensures l[i] == r[i] {
      if i > 0 {
        assert ([m] + ms)[i] == ms[i - 1];
      }
    }
  }

  /** Putting a key never duplicates one. */
  lemma PutKeepsUnique(ms: seq<Member>, key: string, value: Json)
    requires UniqueKeys(ms)
    ensures UniqueKeys(Put(ms, key, value))
  {
    var r := Put(ms, key, value);
    PutKeys(ms, key, value);
    forall i, j | 0 <= i < j < |r| ensures r[i].key != r[j].key {
      assert r[i].key == Keys(r)[i] && r[j].key == Keys(r)[j];
      if j < |ms| {
        assert Keys(r)[i] == ms[i].key && Keys(r)[j] == ms[j].key;
      } else {
        assert Keys(r)[i] == Keys(ms)[i];
      }
    }
  }

  /** `delete obj[key]`. */
  function Delete(ms: seq<Member>, key: string): (r: seq<Member>)
    ensures Get(r, key) == None
  {
    if ms == [] then []
    else if ms[0].key == key then Delete(ms[1..], key)
    else [ms[0]] + Delete(ms[1..], key)
  }

  /** Deleting a key changes no other key. */
  lemma {:induction false} DeleteOther(ms: seq<Member>, key: string, k: string)
    requires k != key
    ensures Get(Delete(ms, key), k) == Get(ms, k)
  {
    if ms != [] {
      DeleteOther(ms[1..], key, k);
    }
  }

  /** The value of a property read: `undefined` for an absent key. */
  function ValueOf(v: Option<Json>): Json {
    if v.Some? then v.value else Undefined
  }

  /** JavaScript truthiness. */
  predicate Truthy(j: Json) {
    match j
    case Undefined => false
    case Null => false
    case Bool(b) => b
    case Num(n) => n != 0.0
    case Str(s) => s != ""
    case _ => true
  }

  /** The members that `{...value}` copies and `for (key in value)` visits: an object's own members,
      an array's or a string's elements under their indices, nothing for any other value. */
  function Spread(j: Json): seq<Member> {
    match j
    case Obj(ms) => ms
    case Arr(items) => seq(|items|, i requires 0 <= i < |items| => Member(NatToString(i), items[i]))
    case Str(s) => seq(|s|, i requires 0 <= i < |s| => Member(NatToString(i), Str([s[i]])))
    case _ => []
  }

  /** Every object that spreading visits is smaller than the value spread. */
  lemma SpreadSmaller(j: Json, i: nat)
    requires i < |Spread(j)| && Spread(j)[i].value.Obj?
    ensures Size(Spread(j)[i].value) < Size(j)
  {
    match j {
      case Obj(ms) => MemberSmaller(ms, i);
      case Arr(items) => ItemSmaller(items, i);
      case _ =>
    }
  }

  // ---------------------------------------------------------------- deepMerge

  /** `result[key] || {}`: the target of a recursive merge. */
  function OrEmpty(v: Option<Json>): Json {
    if v.Some? && Truthy(v.value) then v.value else Obj([])
  }

  /** The members of `deepMerge(target, source)`, one source member at a time: an undefined value is
      skipped; an object merges recursively into the target's value (or into {} when that is falsy); an
      empty array replaces only an empty array; any other value replaces the target's. */
  function MergeMembers(target: seq<Member>, source: seq<Member>): seq<Member>
    decreases MembersSize(source), 1
  {
    if source == [] then target
    else
      var m := source[|source| - 1];
      assert MembersSize(source) == MembersSize(source[..|source| - 1]) + Size(m.value);
      MergeLast(MergeMembers(target, source[..|source| - 1]), m)
  }

  /** One source member merged into the members built so far. */
  function MergeLast(r: seq<Member>, m: Member): seq<Member>
    decreases Size(m.value), 0
  {
    match m.value
    case Undefined => r
    case Obj(f) => Put(r, m.key, Obj(MergeMembers(Spread(OrEmpty(Get(r, m.key))), f)))
    case Arr(items) =>
      if items == [] && Get(r, m.key) != Some(Arr([])) then r else Put(r, m.key, m.value)
    case _ => Put(r, m.key, m.value)
  }

  /** `deepMerge`: a copy of the target updated key by key from the source. */
  method DeepMerge(target: Json, source: Json) returns (result: Json)
    ensures result == Obj(MergeMembers(Spread(target), Spread(source)))
    decreases Size(source)
  {
    var members := Spread(target);
    var src := Spread(source);
    var i := 0;
    while i < |src|
      invariant 0 <= i <= |src|
      invariant members == MergeMembers(Spread(target), src[..i])
    {
      var m := src[i];
      ghost var before := members;
      assert MergeMembers(Spread(target), src[..i + 1]) == MergeLast(before, m) by {
        assert src[..i + 1][..i] == src[..i];
        assert src[..i + 1][i] == m;
      }
      match m.value {
        case Undefined =>
        case Obj(f) =>
          SpreadSmaller(source, i);
          var merged := DeepMerge(OrEmpty(Get(members, m.key)), m.value);
          members := Put(members, m.key, merged);
        case Arr(items) =>
          if items != [] || Get(members, m.key) == Some(Arr([])) {
            members := Put(members, m.key, m.value);
          }
        case _ =>
          members := Put(members, m.key, m.value);
      }
      assert members == MergeLast(before, m);
      i := i + 1;
    }
    assert src[..|src|] == src;
    result := Obj(members);
  }

  /** Merging a concatenation is merging its parts in turn. */
  lemma {:induction false} MergeAppend(target: seq<Member>, a: seq<Member>, b: seq<Member>)
    ensures MergeMembers(target, a + b) == MergeMembers(MergeMembers(target, a), b)
    decreases |b|
  {
    if b == [] {
      assert a + b == a;
    } else {
      var b' := b[..|b| - 1];
      assert (a + b)[..|a + b| - 1] == a + b';
      assert (a + b)[|a + b| - 1] == b[|b| - 1];
      MergeAppend(target, a, b');
    }
  }

  /** A key the source does not mention keeps the target's value. */
  lemma {:induction false} MergeKeepsUnmentioned(target: seq<Member>, source: seq<Member>, key: string)
    requires key !in Keys(source)
    ensures Get(MergeMembers(target, source), key) == Get(target, key)
    decreases |source|
  {
    if source != [] {
      var p := source[..|source| - 1];
      assert key !in Keys(p) by {
        assert forall i :: 0 <= i < |p| ==> Keys(p)[i] == Keys(source)[i];
      }
      assert source[|source| - 1].key != key by {
        assert Keys(source)[|source| - 1] == source[|source| - 1].key;
      }
      MergeKeepsUnmentioned(target, p, key);
      MergeLastOther(MergeMembers(target, p), source[|source| - 1], key);
    }
  }

  /** Merging one member changes no other key. */
  lemma MergeLastOther(r: seq<Member>, m: Member, k: string)
    requires k != m.key
    ensures Get(MergeLast(r, m), k) == Get(r, k)
  {
    match m.value
    case Obj(f) => PutOther(r, m.key, Obj(MergeMembers(Spread(OrEmpty(Get(r, m.key))), f)), k);
    case _ => PutOther(r, m.key, m.value, k);
  }

  /** The target's keys keep their order, and keys new to the target come after them. */
  lemma {:induction false} MergeKeepsTargetKeys(target: seq<Member>, source: seq<Member>)
    ensures Keys(target) <= Keys(MergeMembers(target, source))
    decreases |source|
  {
    if source != [] {
      MergeKeepsTargetKeys(target, source[..|source| - 1]);
      MergeLastKeys(MergeMembers(target, source[..|source| - 1]), source[|source| - 1]);
    }
  }

  /** Merging one more source member keeps every key the target had. */
  lemma MergeLastKeys(r: seq<Member>, m: Member)
    ensures Keys(r) <= Keys(MergeLast(r, m))
  {
    match m.value {
      case Undefined =>
      case Obj(f) => PutKeys(r, m.key, Obj(MergeMembers(Spread(OrEmpty(Get(r, m.key))), f)));
      case _ => PutKeys(r, m.key, m.value);
    }
  }

  /** Members whose value is undefined play no part. */
  function Defined(source: seq<Member>): (r: seq<Member>)
    ensures forall m :: m in r ==> m in source && m.value != Undefined
  {
    if source == [] then []
    else
      var rest := Defined(source[..|source| - 1]);
      if source[|source| - 1].value == Undefined then rest else rest + [source[|source| - 1]]
  }

  /** Source members whose value is `undefined` take no part in a merge. */
  lemma {:induction false} MergeSkipsUndefined(target: seq<Member>, source: seq<Member>)
    ensures MergeMembers(target, source) == MergeMembers(target, Defined(source))
    decreases |source|
  {
    if source != [] {
      var p := source[..|source| - 1];
      MergeSkipsUndefined(target, p);
      var d := Defined(p);
      if source[|source| - 1].value != Undefined {
        assert (d + [source[|source| - 1]])[..|d|] == d;
      }
    }
  }

  /** The value each source member leaves under its key, by the kind of the member's value. Keys are
      unique in a source object, so nothing else in the source touches that key. */
  lemma MergeMember(target: seq<Member>, source: seq<Member>, i: nat)
    requires UniqueKeys(source) && i < |source|
    ensures var key := source[i].key;
      var before := Get(target, key);
      var after := Get(MergeMembers(target, source), key);
      match source[i].value
      case Undefined => after == before
      case Obj(f) => after == Some(Obj(MergeMembers(Spread(OrEmpty(before)), f)))
      case Arr(items) => after == if items == [] then before else Some(source[i].value)
      case _ => after == Some(source[i].value)
  {
    var key := source[i].key;
    var a := source[..i];
    var b := source[i + 1..];
    assert source == a + [source[i]] + b;
    assert key !in Keys(a) by {
      forall j | 0 <= j < |a| ensures Keys(a)[j] != key {
        assert a[j] == source[j];
      }
    }
    assert key !in Keys(b) by {
      forall j | 0 <= j < |b| ensures Keys(b)[j] != key {
        assert b[j] == source[i + 1 + j];
      }
    }
    MergeAppend(target, a + [source[i]], b);
    MergeKeepsUnmentioned(MergeMembers(target, a + [source[i]]), b, key);
    MergeKeepsUnmentioned(target, a, key);
    assert (a + [source[i]])[..|a|] == a;
  }

  /** Where `Get` found its value. */
  lemma {:induction false} GetIndex(ms: seq<Member>, key: string) returns (i: nat)
    requires Get(ms, key).Some?
    ensures i < |ms| && ms[i] == Member(key, Get(ms, key).value)
  {
    if ms[0].key == key {
      i := 0;
    } else {
      var j := GetIndex(ms[1..], key);
      i := j + 1;
    }
  }

  /** What a merge leaves under one key, read off the source's value under that key. */
  lemma MergeByKey(target: seq<Member>, source: seq<Member>, key: string)
    requires UniqueKeys(source)
    ensures var before := Get(target, key);
      var after := Get(MergeMembers(target, source), key);
      match Get(source, key)
      case None => after == before
      case Some(Undefined) => after == before
      case Some(Obj(f)) => after == Some(Obj(MergeMembers(Spread(OrEmpty(before)), f)))
      case Some(Arr(items)) => after == if items == [] then before else Some(Arr(items))
      case Some(v) => after == Some(v)
  {
    GetFindsKeys(source, key);
    if Get(source, key).None? {
      MergeKeepsUnmentioned(target, source, key);
    } else {
      var i := GetIndex(source, key);
      MergeMember(target, source, i);
    }
  }

  /** `MergeByKey` for a key the source does not hold. */
  lemma MergeByKeyAbsent(target: seq<Member>, source: seq<Member>, key: string)
    requires UniqueKeys(source) && Get(source, key).None?
    ensures Get(MergeMembers(target, source), key) == Get(target, key)
  {
    MergeByKey(target, source, key);
  }

  /** `MergeByKey` for a key whose source value is an object. */
  lemma MergeByKeyObject(target: seq<Member>, source: seq<Member>, key: string, f: seq<Member>)
    requires UniqueKeys(source) && Get(source, key) == Some(Obj(f))
    ensures Get(MergeMembers(target, source), key) == Some(Obj(MergeMembers(Spread(OrEmpty(Get(target, key))), f)))
  {
    MergeByKey(target, source, key);
  }

  /** `MergeByKey` for a key whose source value is neither undefined, an object nor an array. */
  lemma MergeByKeyValue(target: seq<Member>, source: seq<Member>, key: string, v: Json)
    requires UniqueKeys(source) && Get(source, key) == Some(v) && !v.Undefined? && !v.Obj? && !v.Arr?
    ensures Get(MergeMembers(target, source), key) == Some(v)
  {
    MergeByKey(target, source, key);
  }

  // ---------------------------------------------------------------- parseFloat

  /** `parseFloat(s)`: leading white space is skipped, then the longest prefix that reads as a decimal
      number is read: an optional sign, digits with an optional fraction, an optional exponent. Without a
      digit the result is NaN (None). A negative zero is the number 0 here. */
  function ParseFloat(s: string): Option<real> {
    match ScanFloat(s)
    case None => None
    case Some(t) =>
      var magnitude := Mantissa(t.whole, t.fraction) * t.scale;
      Some(if t.negative then -magnitude else magnitude)
  }

  /** The parts of the number `parseFloat` reads: its sign, the digits before and after the point, and
      the factor of its exponent. */
  datatype NumberText = NumberText(negative: bool, whole: string, fraction: string, scale: real)

  /** The scan `parseFloat` makes; None where no digit is found. */
  function ScanFloat(s: string): (r: Option<NumberText>)
    ensures r.Some? ==> AllDigits(r.value.whole) && AllDigits(r.value.fraction)
  {
    var i := SkipWhitespace(s, 0);
    var negative := i < |s| && s[i] == '-';
    var j := if i < |s| && (s[i] == '-' || s[i] == '+') then i + 1 else i;
    var n1 := DigitRun(s, j);
    var hasPoint := j + n1 < |s| && s[j + n1] == '.';
    var n2 := if hasPoint then DigitRun(s, j + n1 + 1) else 0;
    if n1 == 0 && n2 == 0 then None
    else
      var e := if hasPoint then j + n1 + 1 + n2 else j + n1;
      Some(NumberText(negative, DigitsAt(s, j), if hasPoint then DigitsAt(s, j + n1 + 1) else "", ExponentScale(s, e)))
  }

  /** The run of digits that starts at `j`. */
  function DigitsAt(s: string, j: nat): (r: string)
    requires j <= |s|
    ensures |r| == DigitRun(s, j) && AllDigits(r)
  {
    DigitRunDigits(s, j);
    s[j..j + DigitRun(s, j)]
  }

  /** The value of the digits before and after the decimal point. */
  function Mantissa(whole: string, fraction: string): real
    requires AllDigits(whole) && AllDigits(fraction)
  {
    DigitsValue(whole) as real + DigitsValue(fraction) as real / Pow10(|fraction|) as real
  }

  /** Without a fraction the mantissa is the whole part's value. */
  lemma MantissaOfWhole(whole: string)
    requires AllDigits(whole)
    ensures Mantissa(whole, "") == DigitsValue(whole) as real
  {
    assert DigitsValue("") == 0 && Pow10(0) == 1;
  }

  /** The factor of an exponent part `e±ddd` at `e`, or 1 when there is none. */
  function ExponentScale(s: string, e: nat): (f: real)
    ensures f > 0.0
  {
    if e < |s| && (s[e] == 'e' || s[e] == 'E') then
      var k := e + 1;
      var negative := k < |s| && s[k] == '-';
      var k2 := if k < |s| && (s[k] == '-' || s[k] == '+') then k + 1 else k;
      var n := DigitRun(s, k2);
      if n == 0 then 1.0
      else
        var p := Pow10(DigitsValue(DigitsAt(s, k2))) as real;
        if negative then 1.0 / p else p
    else 1.0
  }

  /** A digit run over a string of digits reaches its end. */
  lemma {:induction false} DigitRunToEnd(s: string, i: nat)
    requires i <= |s| && forall k :: i <= k < |s| ==> IsDigit(s[k])
    ensures DigitRun(s, i) == |s| - i
    decreases |s| - i
  {
    if i < |s| {
      DigitRunToEnd(s, i + 1);
    }
  }

  /** Round trip: the decimal text of a natural number parses back to it. */
  lemma ParseFloatOfNat(n: nat)
    ensures ParseFloat(NatToString(n)) == Some(n as real)
  {
    ParseFloatOfDigits(NatToString(n));
    NatToStringRoundTrip(n);
  }

  /** A non-empty string of digits parses as its value. */
  lemma ParseFloatOfDigits(s: string)
    requires |s| >= 1 && AllDigits(s)
    ensures ParseFloat(s) == Some(DigitsValue(s) as real)
  {
    ScanFloatOfDigits(s);
    MantissaOfWhole(s);
  }

  /** The scan of a non-empty string of digits takes all of it as the whole part, with no exponent. */
  lemma ScanFloatOfDigits(s: string)
    requires |s| >= 1 && AllDigits(s)
    ensures ScanFloat(s) == Some(NumberText(false, s, "", 1.0))
  {
    assert !IsJsWhitespace(s[0]) && s[0] != '-' && s[0] != '+' by {
      assert IsDigit(s[0]);
    }
    assert SkipWhitespace(s, 0) == 0;
    DigitRunToEnd(s, 0);
    assert DigitsAt(s, 0) == s[0..|s|] == s;
  }

  /** Text that starts with neither a digit, a sign, a point nor white space is NaN. */
  lemma ParseFloatOfWord(s: string)
    requires |s| > 0 && 'a' <= s[0] <= 'z'
    ensures ParseFloat(s) == None
  {
    assert SkipWhitespace(s, 0) == 0 by {
      assert !IsJsWhitespace(s[0]);
    }
  }

  // ---------------------------------------------------------------- defaults

  const DefaultSessionBudget: seq<Member> := [Member("warningThreshold", Num(80.0))]

  const DefaultTodayBudget: seq<Member> := [Member("amount", Num(50.0)), Member("warningThreshold", Num(80.0))]

  function Enabled(on: bool): Member {
    Member("enabled", Bool(on))
  }

  const DefaultSegments: seq<Member> := [
    Member("directory", Obj([Enabled(true)])),
    Member("git", Obj([Enabled(true), Member("showSha", Bool(false))])),
    Member("model", Obj([Enabled(true)])),
    Member("session", Obj([Enabled(true), Member("type", Str("tokens"))])),
    Member("today", Obj([Enabled(true), Member("type", Str("both"))])),
    Member("block", Obj([Enabled(false), Member("type", Str("cost"))])),
    Member("tmux", Obj([Enabled(false)]))
  ]

  const DefaultLines: seq<Json> := [Obj([Member("segments", Obj(DefaultSegments))])]

  /** The defaults' display object: the default lines and no style. */
  const DefaultDisplay: seq<Member> := [Member("lines", Arr(DefaultLines))]

  /** `DEFAULT_CONFIG`, without its colour tables. */
  const DefaultConfig: seq<Member> := [
    Member("theme", Str("dark")),
    Member("display", Obj(DefaultDisplay)),
    Member("budget", Obj(DefaultBudget))
  ]

  // ---------------------------------------------------------------- environment and command line

  const UsageTypes: seq<string> := ["cost", "tokens", "both", "breakdown"]

  /** A display style other than the two known ones falls back to "minimal". */
  function CheckedStyle(style: string): (r: string)
    ensures r == "minimal" || r == "powerline"
    ensures r == style <==> style == "minimal" || style == "powerline"
  {
    if style == "minimal" || style == "powerline" then style else "minimal"
  }

  /** `config.display = { lines: [] }` followed by the checked style. */
  function StyleDisplay(style: string): Json {
    Obj([Member("lines", Arr([])), Member("style", Str(CheckedStyle(style)))])
  }

  function WithTheme(config: seq<Member>, theme: Option<string>): (r: seq<Member>)
    ensures UniqueKeys(config) ==> UniqueKeys(r)
  {
    if theme.Some? && theme.value != "" then
      if UniqueKeys(config) then PutKeepsUnique(config, "theme", Str(theme.value)); Put(config, "theme", Str(theme.value))
      else Put(config, "theme", Str(theme.value))
    else config
  }

  function WithStyle(config: seq<Member>, style: Option<string>): (r: seq<Member>)
    ensures UniqueKeys(config) ==> UniqueKeys(r)
  {
    if style.Some? && style.value != "" then
      if UniqueKeys(config) then PutKeepsUnique(config, "display", StyleDisplay(style.value)); Put(config, "display", StyleDisplay(style.value))
      else Put(config, "display", StyleDisplay(style.value))
    else config
  }

  function WithUsageType(config: seq<Member>, usageType: Option<string>): (r: seq<Member>)
    ensures UniqueKeys(config) ==> UniqueKeys(r)
  {
    if usageType.Some? && usageType.value in UsageTypes then
      if UniqueKeys(config) then PutKeepsUnique(config, "usageType", Str(usageType.value)); Put(config, "usageType", Str(usageType.value))
      else Put(config, "usageType", Str(usageType.value))
    else config
  }

  /** Reading a key after `WithTheme`, `WithStyle` or `WithUsageType`: the key it sets, or the key as before. */
  lemma WithThemeGet(config: seq<Member>, theme: Option<string>, k: string)
    ensures Get(WithTheme(config, theme), k) ==
      if k == "theme" && theme.Some? && theme.value != "" then Some(Str(theme.value)) else Get(config, k)
  {
    if k != "theme" && theme.Some? && theme.value != "" {
      PutOther(config, "theme", Str(theme.value), k);
    }
  }

  /** `--style=` only sets `display.style`, and only when it is non-empty. */
  lemma WithStyleGet(config: seq<Member>, style: Option<string>, k: string)
    ensures Get(WithStyle(config, style), k) ==
      if k == "display" && style.Some? && style.value != "" then Some(StyleDisplay(style.value)) else Get(config, k)
  {
    if k != "display" && style.Some? && style.value != "" {
      PutOther(config, "display", StyleDisplay(style.value), k);
    }
  }

  /** `--usage-type=` only sets `usageType`, and only to one of the accepted kinds. */
  lemma WithUsageTypeGet(config: seq<Member>, usageType: Option<string>, k: string)
    ensures Get(WithUsageType(config, usageType), k) ==
      if k == "usageType" && usageType.Some? && usageType.value in UsageTypes then Some(Str(usageType.value)) else Get(config, k)
  {
    if k != "usageType" && usageType.Some? && usageType.value in UsageTypes {
      PutOther(config, "usageType", Str(usageType.value), k);
    }
  }

  /** The three environment variables the loader reads (None when unset). */
  datatype Environment = Environment(theme: Option<string>, style: Option<string>, usageType: Option<string>)

  /** `loadEnvConfig`. */
  function EnvOverrides(env: Environment): seq<Member> {
    WithUsageType(WithStyle(WithTheme([], env.theme), env.style), env.usageType)
  }

  /** `args.findIndex(arg => arg.startsWith(prefix))` followed by `split("=")[1]`. */
  function FlagValue(args: seq<string>, prefix: string): Option<string> {
    if args == [] then None
    else if StartsWith(args[0], prefix) then SecondField(args[0], '=')
    else FlagValue(args[1..], prefix)
  }

  /** A budget flag's amount: accepted only as a positive number. */
  function BudgetAmount(args: seq<string>, prefix: string): (amount: Option<real>)
    ensures amount.Some? ==> amount.value > 0.0
  {
    var x := ParseFloat(FlagValue(args, prefix).GetOr(""));
    if x.Some? && x.value > 0.0 then x else None
  }

  /** `config.budget = { ...config.budget, [name]: { ...defaults, amount } }`. */
  function WithBudget(config: seq<Member>, name: string, amount: Option<real>, defaults: seq<Member>): (r: seq<Member>)
    ensures UniqueKeys(config) ==> UniqueKeys(r)
  {
    if amount.None? then config
    else
      var item := Obj(Put(defaults, "amount", Num(amount.value)));
      var budget := Obj(Put(Spread(ValueOf(Get(config, "budget"))), name, item));
      if UniqueKeys(config) then PutKeepsUnique(config, "budget", budget); Put(config, "budget", budget)
      else Put(config, "budget", budget)
  }

  /** `WithBudget` changes no key but "budget". */
  lemma WithBudgetOther(config: seq<Member>, name: string, amount: Option<real>, defaults: seq<Member>, k: string)
    requires k != "budget"
    ensures Get(WithBudget(config, name, amount, defaults), k) == Get(config, k)
  {
    if amount.Some? {
      var item := Obj(Put(defaults, "amount", Num(amount.value)));
      PutOther(config, "budget", Obj(Put(Spread(ValueOf(Get(config, "budget"))), name, item)), k);
    }
  }

  /** `WithBudget` puts the named entry into the budget object, spread from the one already there. */
  lemma WithBudgetGet(config: seq<Member>, name: string, amount: Option<real>, defaults: seq<Member>)
    ensures Get(WithBudget(config, name, amount, defaults), "budget") ==
      if amount.None? then Get(config, "budget")
      else Some(Obj(Put(Spread(ValueOf(Get(config, "budget"))), name, Obj(Put(defaults, "amount", Num(amount.value))))))
  {
  }

  /** The first two steps of `parseCLIOverrides` read back: a key other than "budget" keeps what the
      theme and style flags gave it. */
  lemma CliStagesOther(args: seq<string>, k: string)
    requires k != "budget"
    ensures
      var c1 := WithStyle(WithTheme([], FlagValue(args, "--theme=")), FlagValue(args, "--style="));
      var c2 := WithBudget(c1, "today", BudgetAmount(args, "--daily-budget="), DefaultTodayBudget);
      var c3 := WithBudget(c2, "session", BudgetAmount(args, "--session-budget="), DefaultSessionBudget);
      Get(c3, k) == Get(c1, k)
  {
    var c1 := WithStyle(WithTheme([], FlagValue(args, "--theme=")), FlagValue(args, "--style="));
    var c2 := WithBudget(c1, "today", BudgetAmount(args, "--daily-budget="), DefaultTodayBudget);
    WithBudgetOther(c1, "today", BudgetAmount(args, "--daily-budget="), DefaultTodayBudget, k);
    WithBudgetOther(c2, "session", BudgetAmount(args, "--session-budget="), DefaultSessionBudget, k);
  }

  /** `parseCLIOverrides`. */
  function CliOverrides(args: seq<string>): seq<Member> {
    var c1 := WithStyle(WithTheme([], FlagValue(args, "--theme=")), FlagValue(args, "--style="));
    var c2 := WithBudget(c1, "today", BudgetAmount(args, "--daily-budget="), DefaultTodayBudget);
    var c3 := WithBudget(c2, "session", BudgetAmount(args, "--session-budget="), DefaultSessionBudget);
    WithUsageType(c3, FlagValue(args, "--usage="))
  }

  /** The command line sets a theme only when `--theme=` carries one. */
  lemma CliTheme(args: seq<string>)
    ensures var theme := FlagValue(args, "--theme=");
      Get(CliOverrides(args), "theme") == if theme.Some? && theme.value != "" then Some(Str(theme.value)) else None
  {
    var c1 := WithStyle(WithTheme([], FlagValue(args, "--theme=")), FlagValue(args, "--style="));
    var c2 := WithBudget(c1, "today", BudgetAmount(args, "--daily-budget="), DefaultTodayBudget);
    var c3 := WithBudget(c2, "session", BudgetAmount(args, "--session-budget="), DefaultSessionBudget);
    CliStagesOther(args, "theme");
    WithThemeGet([], FlagValue(args, "--theme="), "theme");
    WithStyleGet(WithTheme([], FlagValue(args, "--theme=")), FlagValue(args, "--style="), "theme");
    WithUsageTypeGet(c3, FlagValue(args, "--usage="), "theme");
  }

  /** The command line sets a display, holding no lines and a known style, only when `--style=` carries
      a value. */
  lemma CliStyle(args: seq<string>)
    ensures var style := FlagValue(args, "--style=");
      Get(CliOverrides(args), "display") == if style.Some? && style.value != "" then Some(StyleDisplay(style.value)) else None
  {
    var c1 := WithStyle(WithTheme([], FlagValue(args, "--theme=")), FlagValue(args, "--style="));
    var c2 := WithBudget(c1, "today", BudgetAmount(args, "--daily-budget="), DefaultTodayBudget);
    var c3 := WithBudget(c2, "session", BudgetAmount(args, "--session-budget="), DefaultSessionBudget);
    CliStagesOther(args, "display");
    WithThemeGet([], FlagValue(args, "--theme="), "display");
    WithStyleGet(WithTheme([], FlagValue(args, "--theme=")), FlagValue(args, "--style="), "display");
    WithUsageTypeGet(c3, FlagValue(args, "--usage="), "display");
  }

  /** The command line sets a usage type only when `--usage=` names one of the four. */
  lemma CliUsage(args: seq<string>)
    ensures var usage := FlagValue(args, "--usage=");
      Get(CliOverrides(args), "usageType") == if usage.Some? && usage.value in UsageTypes then Some(Str(usage.value)) else None
  {
    var c1 := WithStyle(WithTheme([], FlagValue(args, "--theme=")), FlagValue(args, "--style="));
    var c2 := WithBudget(c1, "today", BudgetAmount(args, "--daily-budget="), DefaultTodayBudget);
    var c3 := WithBudget(c2, "session", BudgetAmount(args, "--session-budget="), DefaultSessionBudget);
    CliStagesOther(args, "usageType");
    WithThemeGet([], FlagValue(args, "--theme="), "usageType");
    WithStyleGet(WithTheme([], FlagValue(args, "--theme=")), FlagValue(args, "--style="), "usageType");
    WithUsageTypeGet(c3, FlagValue(args, "--usage="), "usageType");
  }

  /** The budget entry a flag gives: its defaults with the amount set. */
  lemma BudgetEntries(amount: real)
    ensures Put(DefaultTodayBudget, "amount", Num(amount)) == [Member("amount", Num(amount)), Member("warningThreshold", Num(80.0))]
    ensures Put(DefaultSessionBudget, "amount", Num(amount)) == [Member("warningThreshold", Num(80.0)), Member("amount", Num(amount))]
  {
  }

  /** The budget object the two flags build, before it is put in place. */
  function CliBudgetMembers(daily: Option<real>, session: Option<real>): seq<Member> {
    var b := if daily.Some? then [Member("today", Obj(Put(DefaultTodayBudget, "amount", Num(daily.value))))] else [];
    if session.Some? then Put(b, "session", Obj(Put(DefaultSessionBudget, "amount", Num(session.value)))) else b
  }

  /** The CLI budget object holds the daily and session amounts that were given. */
  lemma CliBudgetIsMembers(args: seq<string>)
    ensures var daily := BudgetAmount(args, "--daily-budget=");
      var session := BudgetAmount(args, "--session-budget=");
      Get(CliOverrides(args), "budget") ==
        if daily.None? && session.None? then None else Some(Obj(CliBudgetMembers(daily, session)))
  {
    var daily := BudgetAmount(args, "--daily-budget=");
    var session := BudgetAmount(args, "--session-budget=");
    var c1 := WithStyle(WithTheme([], FlagValue(args, "--theme=")), FlagValue(args, "--style="));
    WithThemeGet([], FlagValue(args, "--theme="), "budget");
    WithStyleGet(WithTheme([], FlagValue(args, "--theme=")), FlagValue(args, "--style="), "budget");
    var c2 := WithBudget(c1, "today", daily, DefaultTodayBudget);
    WithBudgetGet(c1, "today", daily, DefaultTodayBudget);
    var b2: seq<Member> := if daily.Some? then [Member("today", Obj(Put(DefaultTodayBudget, "amount", Num(daily.value))))] else [];
    assert Spread(ValueOf(Get(c2, "budget"))) == b2;
    var c3 := WithBudget(c2, "session", session, DefaultSessionBudget);
    WithBudgetGet(c2, "session", session, DefaultSessionBudget);
    WithUsageTypeGet(c3, FlagValue(args, "--usage="), "budget");
  }

  /** The command line sets a budget only when a budget flag reads as a positive number; each of its
      two entries is present only for its own flag, with that amount and the default warning threshold. */
  lemma CliBudget(args: seq<string>)
    ensures var daily := BudgetAmount(args, "--daily-budget=");
      var session := BudgetAmount(args, "--session-budget=");
      var budget := Get(CliOverrides(args), "budget");
      && (budget.Some? <==> daily.Some? || session.Some?)
      && (budget.Some? ==>
            && budget.value.Obj?
            && Get(budget.value.members, "today") ==
                 (if daily.Some? then Some(Obj([Member("amount", Num(daily.value)), Member("warningThreshold", Num(80.0))])) else None)
            && Get(budget.value.members, "session") ==
                 (if session.Some? then Some(Obj([Member("warningThreshold", Num(80.0)), Member("amount", Num(session.value))])) else None))
  {
    var daily := BudgetAmount(args, "--daily-budget=");
    var session := BudgetAmount(args, "--session-budget=");
    CliBudgetIsMembers(args);
    BudgetEntries(daily.GetOr(0.0));
    BudgetEntries(session.GetOr(0.0));
  }

  // ---------------------------------------------------------------- loadConfig

  /** A truthy display style from the file that is not one of the two known styles becomes "minimal". */
  function FixStyle(config: seq<Member>): seq<Member> {
    match Get(config, "display")
    case Some(Obj(d)) =>
      var style := Get(d, "style");
      if style.Some? && Truthy(style.value) && style.value != Str("minimal") && style.value != Str("powerline")
      then Put(config, "display", Obj(Put(d, "style", Str("minimal"))))
      else config
    case _ => config
  }

  /** The style a block segment gets: "cost" for the combined kinds, which a block cannot show. */
  function BlockType(t: Json): Json {
    if t == Str("breakdown") || t == Str("both") then Str("cost") else t
  }

  /** `if (segments[name]) segments[name].type = t`; None where the assignment throws (a property set
      on a primitive value in strict mode). */
  function SetSegmentType(segments: seq<Member>, name: string, t: Json): Option<seq<Member>> {
    var seg := Get(segments, name);
    if seg.None? || !Truthy(seg.value) then Some(segments)
    else
      match seg.value
      case Obj(ms) => Some(Put(segments, name, Obj(Put(ms, "type", t))))
      case Arr(_) => Some(segments)
      case _ => None
  }

  /** The three segments a usage type reaches: session and today get it, block gets its block form. */
  function PropagatedSegments(segs: seq<Member>, t: Json): Option<seq<Member>> {
    var s1 := SetSegmentType(segs, "session", t);
    if s1.None? then None
    else
      var s2 := SetSegmentType(s1.value, "today", t);
      if s2.None? then None
      else SetSegmentType(s2.value, "block", BlockType(t))
  }

  /** The `forEach` callback on one line; None where reading `line.segments.session` throws. */
  function PropagatedLine(line: Json, t: Json): Option<Json> {
    match line
    case Obj(ms) =>
      (match Get(ms, "segments")
       case None => None
       case Some(Undefined) => None
       case Some(Null) => None
       case Some(Obj(segs)) =>
         var s := PropagatedSegments(segs, t);
         if s.None? then None else Some(Obj(Put(ms, "segments", Obj(s.value))))
       case Some(_) => Some(line))
    case _ => None
  }

  function PropagatedLines(lines: seq<Json>, t: Json): Option<seq<Json>> {
    if lines == [] then Some([])
    else
      match PropagatedLines(lines[..|lines| - 1], t)
      case None => None
      case Some(done) =>
        match PropagatedLine(lines[|lines| - 1], t)
        case None => None
        case Some(line) => Some(done + [line])
  }

  /** A truthy `usageType` is copied into every line's segments and then deleted; None where the source
      throws (no display object, no `lines` array, or a line that cannot be read). */
  function Propagated(config: seq<Member>): Option<seq<Member>> {
    var t := Get(config, "usageType");
    if t.None? || !Truthy(t.value) then Some(config)
    else
      match Get(config, "display")
      case Some(Obj(d)) =>
        (match Get(d, "lines")
         case Some(Arr(lines)) =>
           var ls := PropagatedLines(lines, t.value);
           if ls.None? then None
           else Some(Delete(Put(config, "display", Obj(Put(d, "lines", Arr(ls.value)))), "usageType"))
         case _ => None)
      case _ => None
  }

  /** Once a prefix of the lines fails to propagate, so do all the lines. */
  lemma {:induction false} FailedPrefixFails(lines: seq<Json>, i: nat, t: Json)
    requires i <= |lines| && PropagatedLines(lines[..i], t).None?
    ensures PropagatedLines(lines, t).None?
    decreases |lines| - i
  {
    if i < |lines| {
      assert lines[..i + 1][..i] == lines[..i];
      FailedPrefixFails(lines, i + 1, t);
    } else {
      assert lines[..i] == lines;
    }
  }

  /** One more line for the lines step: it fails where that line cannot be read, and otherwise appends
      the line's rewrite. */
  lemma PropagatedLinesStep(items: seq<Json>, t: Json, i: nat, done: seq<Json>)
    requires i < |items| && PropagatedLines(items[..i], t) == Some(done)
    ensures PropagatedLines(items[..i + 1], t) ==
      if PropagatedLine(items[i], t).None? then None else Some(done + [PropagatedLine(items[i], t).value])
  {
    assert items[..i + 1][..i] == items[..i];
  }

  /** The `usageType` step of `loadConfig`. */
  method PropagateUsageType(config: seq<Member>) returns (r: Option<seq<Member>>)
    ensures r == Propagated(config)
  {
    var t := Get(config, "usageType");
    if t.None? || !Truthy(t.value) {
      return Some(config);
    }
    var display := Get(config, "display");
    if display.None? || !display.value.Obj? {
      return None;
    }
    var d := display.value.members;
    var lines := Get(d, "lines");
    if lines.None? || !lines.value.Arr? {
      return None;
    }
    var done := PropagateLines(lines.value.items, t.value);
    if done.None? {
      return None;
    }
    r := Some(Delete(Put(config, "display", Obj(Put(d, "lines", Arr(done.value)))), "usageType"));
  }

  /** The `forEach` over the lines: they are updated one by one, and the first line that cannot be
      read stops the step. */
  method PropagateLines(items: seq<Json>, t: Json) returns (r: Option<seq<Json>>)
    ensures r == PropagatedLines(items, t)
  {
    var done: seq<Json> := [];
    var i := 0;
    while i < |items|
      invariant 0 <= i <= |items|
      invariant PropagatedLines(items[..i], t) == Some(done)
    {
      var line := PropagatedLine(items[i], t);
      PropagatedLinesStep(items, t, i, done);
      if line.None? {
        FailedPrefixFails(items, i + 1, t);
        return None;
      }
      done := done + [line.value];
      i := i + 1;
    }
    assert items[..|items|] == items;
    r := Some(done);
  }

  /** The defaults merged with the configuration file's contents (None when no file was found or it
      could not be read). */
  function FileStage(fileConfig: Option<Json>): seq<Member> {
    if fileConfig.Some? then MergeMembers(DefaultConfig, Spread(fileConfig.value)) else DefaultConfig
  }

  /** The environment's overrides merged in (None when they are ignored). */
  function EnvStage(config: seq<Member>, env: Option<Environment>): seq<Member> {
    if env.Some? then MergeMembers(config, EnvOverrides(env.value)) else config
  }

  /** What `loadConfig` returns: the file stage, the style check, the environment stage, the command
      line's overrides and the `usageType` step; None where it throws. */
  function LoadedConfig(fileConfig: Option<Json>, env: Option<Environment>, cliOverrides: Json): Option<seq<Member>> {
    Propagated(MergeMembers(EnvStage(FixStyle(FileStage(fileConfig)), env), Spread(cliOverrides)))
  }

  /** `loadConfig`. */
  method LoadConfig(fileConfig: Option<Json>, env: Option<Environment>, cliOverrides: Json) returns (config: Option<seq<Member>>)
    ensures config == LoadedConfig(fileConfig, env, cliOverrides)
  {
    var c := DefaultConfig;
    if fileConfig.Some? {
      var merged := DeepMerge(Obj(c), fileConfig.value);
      c := merged.members;
    }
    assert c == FileStage(fileConfig);
    c := FixStyle(c);
    if env.Some? {
      var merged := DeepMerge(Obj(c), Obj(EnvOverrides(env.value)));
      c := merged.members;
    }
    assert c == EnvStage(FixStyle(FileStage(fileConfig)), env);
    var merged := DeepMerge(Obj(c), cliOverrides);
    config := PropagateUsageType(merged.members);
  }

  /** `loadConfigFromCLI`, with the configuration file already found and read. */
  method LoadConfigFromCLI(args: seq<string>, fileConfig: Option<Json>, env: Option<Environment>) returns (config: Option<seq<Member>>)
    ensures config == LoadedConfig(fileConfig, env, Obj(CliOverrides(args)))
  {
    config := LoadConfig(fileConfig, env, Obj(CliOverrides(args)));
  }

  // ---------------------------------------------------------------- what loading guarantees

  /** A display override as the environment and the command line build it: absent, or an object whose
      style is one of the two known styles. */
  predicate KnownStyleDisplay(v: Option<Json>) {
    v.None? ||
    (v.value.Obj? && UniqueKeys(v.value.members) &&
     (Get(v.value.members, "style") == Some(Str("minimal")) || Get(v.value.members, "style") == Some(Str("powerline"))))
  }

  /** The environment's overrides hold each key once, and a display only with a known style. */
  lemma EnvOverridesShape(env: Environment)
    ensures UniqueKeys(EnvOverrides(env))
    ensures KnownStyleDisplay(Get(EnvOverrides(env), "display"))
    ensures var theme := env.theme;
      Get(EnvOverrides(env), "theme") == if theme.Some? && theme.value != "" then Some(Str(theme.value)) else None
  {
    var c1 := WithTheme([], env.theme);
    var c2 := WithStyle(c1, env.style);
    WithThemeGet([], env.theme, "display");
    WithThemeGet([], env.theme, "theme");
    WithStyleGet(c1, env.style, "theme");
    WithUsageTypeGet(c2, env.usageType, "display");
    WithUsageTypeGet(c2, env.usageType, "theme");
  }

  /** The command line's overrides hold each key once, and a display only with a known style. */
  lemma CliOverridesShape(args: seq<string>)
    ensures UniqueKeys(CliOverrides(args))
    ensures KnownStyleDisplay(Get(CliOverrides(args), "display"))
  {
    CliStyle(args);
  }

  /** The display's style, where the display is an object and the style truthy, is one of the two known
      styles. */
  predicate StyleChecked(config: seq<Member>) {
    match Get(config, "display")
    case Some(Obj(d)) =>
      var style := Get(d, "style");
      style.None? || !Truthy(style.value) || style.value == Str("minimal") || style.value == Str("powerline")
    case _ => true
  }

  /** The style check leaves a checked style alone, checks every other one, and touches nothing but the
      display. */
  lemma FixStyleChecks(config: seq<Member>)
    ensures StyleChecked(FixStyle(config))
    ensures StyleChecked(config) ==> FixStyle(config) == config
    ensures forall k :: k != "display" ==> Get(FixStyle(config), k) == Get(config, k)
  {
    match Get(config, "display")
    case Some(Obj(d)) =>
      forall k | k != "display" ensures Get(FixStyle(config), k) == Get(config, k) {
        PutOther(config, "display", Obj(Put(d, "style", Str("minimal"))), k);
      }
    case _ =>
  }

  /** Merging overrides whose display has a known style keeps the style checked. */
  lemma MergeKeepsStyleChecked(config: seq<Member>, overrides: seq<Member>)
    requires StyleChecked(config) && UniqueKeys(overrides) && KnownStyleDisplay(Get(overrides, "display"))
    ensures StyleChecked(MergeMembers(config, overrides))
  {
    MergeByKey(config, overrides, "display");
    var display := Get(overrides, "display");
    if display.Some? {
      var f := display.value.members;
      MergeByKey(Spread(OrEmpty(Get(config, "display"))), f, "style");
    }
  }

  /** The `usageType` step removes a truthy `usageType`, leaves a configuration without one as it was,
      and changes no key but `display` and `usageType`, nor the display's style. */
  lemma PropagatedKeeps(config: seq<Member>)
    requires Propagated(config).Some?
    ensures var r := Propagated(config).value; var u := Get(r, "usageType");
      u.None? || !Truthy(u.value)
    ensures var u := Get(config, "usageType");
      u.None? || !Truthy(u.value) ==> Propagated(config) == Some(config)
    ensures forall k :: k != "display" && k != "usageType" ==> Get(Propagated(config).value, k) == Get(config, k)
    ensures StyleChecked(config) ==> StyleChecked(Propagated(config).value)
  {
    var t := Get(config, "usageType");
    if t.Some? && Truthy(t.value) {
      var d := Get(config, "display").value.members;
      var lines := PropagatedLines(Get(d, "lines").value.items, t.value).value;
      var d' := Put(d, "lines", Arr(lines));
      var c' := Put(config, "display", Obj(d'));
      var r := Propagated(config).value;
      assert r == Delete(c', "usageType");
      DeleteOther(c', "usageType", "display");
      assert Get(r, "display") == Some(Obj(d'));
      PutOther(d, "lines", Arr(lines), "style");
      forall k | k != "display" && k != "usageType" ensures Get(r, k) == Get(config, k) {
        DeleteOther(c', "usageType", k);
        PutOther(config, "display", Obj(d'), k);
      }
    }
  }

  /** Whatever the file, the environment and the flags say, a loaded configuration's display style is
      one of the two known styles (or absent or falsy). */
  lemma LoadedStyleChecked(fileConfig: Option<Json>, env: Option<Environment>, args: seq<string>)
    requires LoadedConfig(fileConfig, env, Obj(CliOverrides(args))).Some?
    ensures StyleChecked(LoadedConfig(fileConfig, env, Obj(CliOverrides(args))).value)
  {
    var c2 := FixStyle(FileStage(fileConfig));
    FixStyleChecks(FileStage(fileConfig));
    var c3 := EnvStage(c2, env);
    if env.Some? {
      EnvOverridesShape(env.value);
      MergeKeepsStyleChecked(c2, EnvOverrides(env.value));
    }
    CliOverridesShape(args);
    MergeKeepsStyleChecked(c3, CliOverrides(args));
    PropagatedKeeps(MergeMembers(c3, CliOverrides(args)));
  }

  /** The theme comes from the command line if it names one, else from the environment if it names
      one, else from the configuration file, else the default "dark". */
  lemma LoadedTheme(fileConfig: Option<Json>, env: Option<Environment>, args: seq<string>)
    requires LoadedConfig(fileConfig, env, Obj(CliOverrides(args))).Some?
    ensures var cli := FlagValue(args, "--theme=");
      Get(LoadedConfig(fileConfig, env, Obj(CliOverrides(args))).value, "theme") ==
        if cli.Some? && cli.value != "" then Some(Str(cli.value))
        else if env.Some? && env.value.theme.Some? && env.value.theme.value != "" then Some(Str(env.value.theme.value))
        else if fileConfig.None? then Some(Str("dark"))
        else Get(FileStage(fileConfig), "theme")
  {
    var c2 := FixStyle(FileStage(fileConfig));
    var c3 := EnvStage(c2, env);
    var c4 := MergeMembers(c3, CliOverrides(args));
    assert LoadedConfig(fileConfig, env, Obj(CliOverrides(args))) == Propagated(c4) by {
      assert Spread(Obj(CliOverrides(args))) == CliOverrides(args);
    }
    FileStageTheme(fileConfig);
    EnvStageTheme(c2, env);
    CliStageTheme(c3, args);
    PropagatedKeepsKey(c4, "theme");
  }

  /** The `usageType` step keeps every key but `display` and `usageType`. */
  lemma PropagatedKeepsKey(config: seq<Member>, k: string)
    requires Propagated(config).Some? && k != "display" && k != "usageType"
    ensures Get(Propagated(config).value, k) == Get(config, k)
  {
    PropagatedKeeps(config);
  }

  /** The style check keeps the file stage's theme, which is "dark" without a file. */
  lemma FileStageTheme(fileConfig: Option<Json>)
    ensures Get(FixStyle(FileStage(fileConfig)), "theme") ==
      if fileConfig.None? then Some(Str("dark")) else Get(FileStage(fileConfig), "theme")
  {
    FixStyleChecks(FileStage(fileConfig));
    if fileConfig.None? {
      DefaultConfigFacts();
    }
  }

  /** The environment stage sets the theme the environment names, if it names one. */
  lemma EnvStageTheme(config: seq<Member>, env: Option<Environment>)
    ensures Get(EnvStage(config, env), "theme") ==
      if env.Some? && env.value.theme.Some? && env.value.theme.value != "" then Some(Str(env.value.theme.value))
      else Get(config, "theme")
  {
    if env.Some? {
      EnvOverridesShape(env.value);
      MergeByKey(config, EnvOverrides(env.value), "theme");
    }
  }

  /** Merging the command line's overrides sets the theme the flag names, if it names one. */
  lemma CliStageTheme(config: seq<Member>, args: seq<string>)
    ensures var cli := FlagValue(args, "--theme=");
      Get(MergeMembers(config, CliOverrides(args)), "theme") ==
        if cli.Some? && cli.value != "" then Some(Str(cli.value)) else Get(config, "theme")
  {
    CliOverridesShape(args);
    CliTheme(args);
    MergeByKey(config, CliOverrides(args), "theme");
  }

  /** The `type` of the named segment, where that segment is an object. */
  function TypeIn(segs: seq<Member>, name: string): Option<Json> {
    match Get(segs, name)
    case Some(Obj(seg)) => Get(seg, "type")
    case _ => None
  }

  predicate IsObjectIn(segs: seq<Member>, name: string) {
    Get(segs, name).Some? && Get(segs, name).value.Obj?
  }

  /** The `type` of the named segment of a line, where the line, its segments and that segment are
      objects. */
  function SegmentType(line: Json, name: string): Option<Json> {
    if !line.Obj? then None
    else
      match Get(line.members, "segments")
      case Some(Obj(segs)) => TypeIn(segs, name)
      case _ => None
  }

  predicate HasSegmentObject(line: Json, name: string) {
    line.Obj? &&
    match Get(line.members, "segments")
    case Some(Obj(segs)) => IsObjectIn(segs, name)
    case _ => false
  }

  /** Setting one segment's type sets it where that segment is an object and changes no other segment. */
  lemma SetSegmentTypeSets(segs: seq<Member>, name: string, t: Json)
    requires SetSegmentType(segs, name, t).Some?
    ensures var r := SetSegmentType(segs, name, t).value;
      && (IsObjectIn(segs, name) ==> IsObjectIn(r, name) && TypeIn(r, name) == Some(t))
      && (!IsObjectIn(segs, name) ==> r == segs)
      && forall k :: k != name ==> Get(r, k) == Get(segs, k)
  {
    match Get(segs, name)
    case Some(Obj(ms)) =>
      forall k | k != name ensures Get(SetSegmentType(segs, name, t).value, k) == Get(segs, k) {
        PutOther(segs, name, Obj(Put(ms, "type", t)), k);
      }
    case _ =>
  }

  /** The three segments a usage type reaches get their types; every other segment is as it was. */
  lemma PropagatedSegmentsTypes(segs: seq<Member>, t: Json)
    requires PropagatedSegments(segs, t).Some?
    ensures var r := PropagatedSegments(segs, t).value;
      && (IsObjectIn(segs, "session") ==> TypeIn(r, "session") == Some(t))
      && (IsObjectIn(segs, "today") ==> TypeIn(r, "today") == Some(t))
      && (IsObjectIn(segs, "block") ==> TypeIn(r, "block") == Some(BlockType(t)))
      && forall name :: name != "session" && name != "today" && name != "block" ==> Get(r, name) == Get(segs, name)
  {
    SetSegmentTypeSets(segs, "session", t);
    var s1 := SetSegmentType(segs, "session", t).value;
    SetSegmentTypeSets(s1, "today", t);
    var s2 := SetSegmentType(s1, "today", t).value;
    SetSegmentTypeSets(s2, "block", BlockType(t));
    var s3 := SetSegmentType(s2, "block", BlockType(t)).value;
    assert Get(s3, "session") == Get(s1, "session") && Get(s3, "today") == Get(s2, "today");
    assert Get(s1, "today") == Get(segs, "today") && Get(s2, "block") == Get(segs, "block");
  }

  /** A line the `usageType` step could read has its session and today segments set to that type and
      its block segment to the block's version of it; every other segment is as it was. */
  lemma PropagatedLineTypes(line: Json, t: Json)
    requires PropagatedLine(line, t).Some?
    ensures var r := PropagatedLine(line, t).value;
      && (HasSegmentObject(line, "session") ==> SegmentType(r, "session") == Some(t))
      && (HasSegmentObject(line, "today") ==> SegmentType(r, "today") == Some(t))
      && (HasSegmentObject(line, "block") ==> SegmentType(r, "block") == Some(BlockType(t)))
    ensures forall name :: name != "session" && name != "today" && name != "block" ==>
      SegmentType(PropagatedLine(line, t).value, name) == SegmentType(line, name)
  {
    var r := PropagatedLine(line, t).value;
    var segments := Get(line.members, "segments").value;
    if segments.Obj? {
      var seg := segments.members;
      PropagatedSegmentsTypes(seg, t);
      var s3 := PropagatedSegments(seg, t).value;
      var ms := Put(line.members, "segments", Obj(s3));
      assert r == Obj(ms);
      assert Get(ms, "segments") == Some(Obj(s3));
      forall name ensures SegmentType(r, name) == TypeIn(s3, name) && SegmentType(line, name) == TypeIn(seg, name) {
      }
    } else {
      assert r == line;
    }
  }

  /** The lines in the display, where the display is an object and its lines an array. */
  function Lines(config: seq<Member>): seq<Json> {
    match Get(config, "display")
    case Some(Obj(d)) =>
      (match Get(d, "lines")
       case Some(Arr(items)) => items
       case _ => [])
    case _ => []
  }

  /** The lines step succeeds exactly when every line can be read, and then treats each line on its own. */
  lemma PropagatedLinesEach(lines: seq<Json>, t: Json)
    ensures PropagatedLines(lines, t).Some? <==> forall i :: 0 <= i < |lines| ==> PropagatedLine(lines[i], t).Some?
    ensures PropagatedLines(lines, t).Some? ==>
      var r := PropagatedLines(lines, t).value;
      |r| == |lines| && forall i :: 0 <= i < |lines| ==> r[i] == PropagatedLine(lines[i], t).value
  {
    if PropagatedLines(lines, t).Some? {
      PropagatedLinesLength(lines, t);
      forall i | 0 <= i < |lines|
        ensures PropagatedLine(lines[i], t).Some?
        ensures PropagatedLines(lines, t).value[i] == PropagatedLine(lines[i], t).value
      {
        PropagatedLinesAt(lines, t, i);
      }
    } else if forall i :: 0 <= i < |lines| ==> PropagatedLine(lines[i], t).Some? {
      PropagatedLinesAll(lines, t);
    }
  }

  /** A successful lines step keeps the number of lines. */
  lemma {:induction false} PropagatedLinesLength(lines: seq<Json>, t: Json)
    requires PropagatedLines(lines, t).Some?
    ensures |PropagatedLines(lines, t).value| == |lines|
  {
    if lines != [] {
      PropagatedLinesLength(lines[..|lines| - 1], t);
    }
  }

  /** A successful lines step could read line i, and holds that line's rewrite at i. */
  lemma {:induction false} PropagatedLinesAt(lines: seq<Json>, t: Json, i: nat)
    requires PropagatedLines(lines, t).Some? && i < |lines|
    ensures |PropagatedLines(lines, t).value| == |lines|
    ensures PropagatedLine(lines[i], t).Some?
    ensures PropagatedLines(lines, t).value[i] == PropagatedLine(lines[i], t).value
    decreases |lines|
  {
    PropagatedLinesLength(lines, t);
    PropagatedLinesLength(lines[..|lines| - 1], t);
    if i < |lines| - 1 {
      PropagatedLinesAt(lines[..|lines| - 1], t, i);
      assert lines[..|lines| - 1][i] == lines[i];
    }
  }

  /** When every line can be read, the lines step succeeds. */
  lemma {:induction false} PropagatedLinesAll(lines: seq<Json>, t: Json)
    requires forall i :: 0 <= i < |lines| ==> PropagatedLine(lines[i], t).Some?
    ensures PropagatedLines(lines, t).Some?
    decreases |lines|
  {
    if lines != [] {
      assert forall i :: 0 <= i < |lines| - 1 ==> lines[..|lines| - 1][i] == lines[i];
      PropagatedLinesAll(lines[..|lines| - 1], t);
    }
  }

  /** With a truthy `usageType`, the step keeps the number of lines and rewrites each line on its own. */
  lemma PropagatedLinesOfConfig(config: seq<Member>)
    requires Propagated(config).Some?
    ensures var t := Get(config, "usageType");
      t.Some? && Truthy(t.value) ==>
        var r := Propagated(config).value;
        && |Lines(r)| == |Lines(config)|
        && (forall i :: 0 <= i < |Lines(config)| ==> PropagatedLine(Lines(config)[i], t.value).Some?)
        && forall i :: 0 <= i < |Lines(config)| ==> Lines(r)[i] == PropagatedLine(Lines(config)[i], t.value).value
  {
    var t := Get(config, "usageType");
    if t.Some? && Truthy(t.value) {
      var d := Get(config, "display").value.members;
      var lines := Get(d, "lines").value.items;
      assert Lines(config) == lines;
      PropagatedLinesEach(lines, t.value);
      var ls := PropagatedLines(lines, t.value).value;
      var d' := Put(d, "lines", Arr(ls));
      var c' := Put(config, "display", Obj(d'));
      var r := Delete(c', "usageType");
      assert Propagated(config) == Some(r);
      DeleteOther(c', "usageType", "display");
      assert Get(r, "display") == Get(c', "display") == Some(Obj(d'));
      assert Get(d', "lines") == Some(Arr(ls));
      assert Lines(r) == ls;
    }
  }

  // ---------------------------------------------------------------- loading from the command line alone

  /** `config.budget?.[name]?.amount`, where the budget and its entry are objects. */
  function BudgetAmountOf(config: seq<Member>, name: string): Option<Json> {
    match Get(config, "budget")
    case Some(Obj(b)) => EntryAmount(b, name)
    case _ => None
  }

  /** The amount of a budget object's named entry. */
  function EntryAmount(b: seq<Member>, name: string): Option<Json> {
    match Get(b, name)
    case Some(Obj(entry)) => Get(entry, "amount")
    case _ => None
  }

  /** The defaults' budget object. */
  const DefaultBudget: seq<Member> := [Member("session", Obj(DefaultSessionBudget)), Member("today", Obj(DefaultTodayBudget))]

  /** What the defaults hold under the keys loading reads. */
  lemma DefaultConfigFacts()
    ensures Get(DefaultConfig, "theme") == Some(Str("dark"))
    ensures Get(DefaultConfig, "display") == Some(Obj(DefaultDisplay))
    ensures Get(DefaultConfig, "budget") == Some(Obj(DefaultBudget))
    ensures Get(DefaultConfig, "usageType") == None
    ensures Get(DefaultDisplay, "style") == None
  {
    assert DefaultConfig[0] == Member("theme", Str("dark"));
    assert DefaultConfig[0].key != "display";
    assert DefaultConfig[1..][0].key == "display";
    assert DefaultConfig[1..][0].key != "budget";
    assert DefaultConfig[2..][0].key == "budget";
    assert DefaultConfig[1..][1..] == DefaultConfig[2..];
    assert Get(DefaultConfig[2..], "budget") == Some(DefaultConfig[2].value);
    assert Get(DefaultConfig[1..], "budget") == Get(DefaultConfig[2..], "budget");
    assert "usageType" !in Keys(DefaultConfig);
    GetFindsKeys(DefaultConfig, "usageType");
    assert "style" !in Keys(DefaultDisplay);
    GetFindsKeys(DefaultDisplay, "style");
  }

  /** The defaults alone, with only the command line's overrides merged into them. */
  function CliOnly(args: seq<string>): seq<Member> {
    MergeMembers(DefaultConfig, CliOverrides(args))
  }

  /** Without a configuration file or environment overrides, loading is the `usageType` step applied to
      the defaults with the command line merged in. */
  lemma CliOnlyStages(args: seq<string>)
    ensures LoadedConfig(None, None, Obj(CliOverrides(args))) == Propagated(CliOnly(args))
  {
    var c2 := FixStyle(FileStage(None));
    assert c2 == DefaultConfig by {
      DefaultConfigFacts();
    }
    assert EnvStage(c2, None) == DefaultConfig;
    assert Spread(Obj(CliOverrides(args))) == CliOverrides(args);
  }

  /** A display override built from a style never replaces the lines it is merged over: its empty
      `lines` array is skipped. */
  lemma StyleDisplayKeepsLines(d: seq<Member>, style: string)
    ensures Get(MergeMembers(d, StyleDisplay(style).members), "lines") == Get(d, "lines")
  {
    var f := StyleDisplay(style).members;
    assert Get(f, "lines") == Some(Arr([]));
    MergeByKey(d, f, "lines");
  }

  /** A style flag alone merges its display over the default display; without one that display stays. */
  lemma CliOnlyDisplay(args: seq<string>)
    ensures var style := FlagValue(args, "--style=");
      Get(CliOnly(args), "display") ==
        if style.Some? && style.value != "" then Some(Obj(MergeMembers(DefaultDisplay, StyleDisplay(style.value).members)))
        else Some(Obj(DefaultDisplay))
  {
    assert Get(DefaultConfig, "display") == Some(Obj(DefaultDisplay)) by {
      DefaultConfigFacts();
    }
    assert OrEmpty(Some(Obj(DefaultDisplay))) == Obj(DefaultDisplay);
    CliOverridesShape(args);
    CliStyle(args);
    MergeByKey(DefaultConfig, CliOverrides(args), "display");
  }

  /** The command line alone sets the usage type its flag gives. */
  lemma CliOnlyUsage(args: seq<string>)
    ensures Get(CliOnly(args), "usageType") == Get(CliOverrides(args), "usageType")
  {
    assert Get(DefaultConfig, "usageType") == None by {
      DefaultConfigFacts();
    }
    CliOverridesShape(args);
    CliUsage(args);
    MergeByKey(DefaultConfig, CliOverrides(args), "usageType");
  }

  /** A style flag alone leaves the default lines in place. */
  lemma CliOnlyLines(args: seq<string>)
    ensures Lines(CliOnly(args)) == DefaultLines
  {
    CliOnlyDisplay(args);
    var style := FlagValue(args, "--style=");
    var d := if style.Some? && style.value != "" then MergeMembers(DefaultDisplay, StyleDisplay(style.value).members) else DefaultDisplay;
    assert Get(DefaultDisplay, "lines") == Some(Arr(DefaultLines));
    if style.Some? && style.value != "" {
      StyleDisplayKeepsLines(DefaultDisplay, style.value);
    }
    LinesOf(CliOnly(args), d, DefaultLines);
  }

  /** The configured lines, read through `display.lines`. */
  lemma LinesOf(config: seq<Member>, d: seq<Member>, lines: seq<Json>)
    requires Get(config, "display") == Some(Obj(d)) && Get(d, "lines") == Some(Arr(lines))
    ensures Lines(config) == lines
  {
  }

  /** A key found at index i, with no earlier member under it, reads as the member there. */
  lemma {:induction false} GetAt(ms: seq<Member>, i: nat)
    requires i < |ms| && forall j :: 0 <= j < i ==> ms[j].key != ms[i].key
    ensures Get(ms, ms[i].key) == Some(ms[i].value)
  {
    if i > 0 {
      GetAt(ms[1..], i - 1);
    }
  }

  /** Setting the type of an object segment succeeds and leaves another object segment one. */
  lemma SetSegmentTypeKeeps(segs: seq<Member>, name: string, t: Json, other: string)
    requires IsObjectIn(segs, name) && IsObjectIn(segs, other) && other != name
    ensures SetSegmentType(segs, name, t).Some? && IsObjectIn(SetSegmentType(segs, name, t).value, other)
  {
    var ms := Get(segs, name).value.members;
    PutOther(segs, name, Obj(Put(ms, "type", t)), other);
  }

  /** Segments whose session, today and block entries are objects always take a usage type. */
  lemma ObjectSegmentsPropagate(segs: seq<Member>, t: Json)
    requires IsObjectIn(segs, "session") && IsObjectIn(segs, "today") && IsObjectIn(segs, "block")
    ensures PropagatedSegments(segs, t).Some?
  {
    SetSegmentTypeKeeps(segs, "session", t, "today");
    SetSegmentTypeKeeps(segs, "session", t, "block");
    var s1 := SetSegmentType(segs, "session", t).value;
    SetSegmentTypeKeeps(s1, "today", t, "block");
  }

  /** The default line takes any usage type: its session and today segments get it, its block segment
      gets the block's version of it. */
  lemma DefaultLinesPropagate(t: Json)
    ensures PropagatedLines(DefaultLines, t).Some?
    ensures var ls := PropagatedLines(DefaultLines, t).value;
      && |ls| == 1
      && SegmentType(ls[0], "session") == Some(t)
      && SegmentType(ls[0], "today") == Some(t)
      && SegmentType(ls[0], "block") == Some(BlockType(t))
  {
    DefaultLinePropagates(t);
    PropagatedLinesEach(DefaultLines, t);
  }

  /** The default line's session, today and block segments are objects. */
  lemma DefaultSegmentObjects()
    ensures IsObjectIn(DefaultSegments, "session") && IsObjectIn(DefaultSegments, "today") && IsObjectIn(DefaultSegments, "block")
  {
    GetAt(DefaultSegments, 3);
    GetAt(DefaultSegments, 4);
    GetAt(DefaultSegments, 5);
  }

  /** The default line takes the usage type on its session and today segments, and the block form on its block segment. */
  lemma DefaultLinePropagates(t: Json)
    ensures PropagatedLine(DefaultLines[0], t).Some?
    ensures var r := PropagatedLine(DefaultLines[0], t).value;
      && SegmentType(r, "session") == Some(t)
      && SegmentType(r, "today") == Some(t)
      && SegmentType(r, "block") == Some(BlockType(t))
  {
    assert DefaultLines[0] == Obj([Member("segments", Obj(DefaultSegments))]);
    DefaultSegmentObjects();
    ObjectLinePropagates([Member("segments", Obj(DefaultSegments))], DefaultSegments, t);
  }

  /** A line whose session, today and block segments are objects takes any usage type on all three. */
  lemma ObjectLinePropagates(ms: seq<Member>, segs: seq<Member>, t: Json)
    requires Get(ms, "segments") == Some(Obj(segs))
    requires IsObjectIn(segs, "session") && IsObjectIn(segs, "today") && IsObjectIn(segs, "block")
    ensures PropagatedLine(Obj(ms), t).Some?
    ensures var r := PropagatedLine(Obj(ms), t).value;
      && SegmentType(r, "session") == Some(t)
      && SegmentType(r, "today") == Some(t)
      && SegmentType(r, "block") == Some(BlockType(t))
  {
    ObjectSegmentsPropagate(segs, t);
    assert PropagatedLine(Obj(ms), t).Some?;
    assert HasSegmentObject(Obj(ms), "session") && HasSegmentObject(Obj(ms), "today") && HasSegmentObject(Obj(ms), "block");
    PropagatedLineTypes(Obj(ms), t);
  }



  /** The default budget: fifty for today, no amount for the session. */
  lemma DefaultBudgetAmounts()
    ensures EntryAmount(DefaultBudget, "today") == Some(Num(50.0))
    ensures EntryAmount(DefaultBudget, "session") == None
  {
    assert Get(DefaultBudget, "today") == Some(Obj(DefaultTodayBudget));
    assert Get(DefaultSessionBudget, "amount") == None;
  }

  /** The budget object of the defaults with only the command line merged in. */
  lemma CliOnlyBudgetObject(args: seq<string>)
    ensures var daily := BudgetAmount(args, "--daily-budget=");
      var session := BudgetAmount(args, "--session-budget=");
      Get(CliOnly(args), "budget") ==
        if daily.None? && session.None? then Some(Obj(DefaultBudget))
        else Some(Obj(MergeMembers(DefaultBudget, CliBudgetMembers(daily, session))))
  {
    CliOverridesShape(args);
    CliBudgetIsMembers(args);
    MergeByKey(DefaultConfig, CliOverrides(args), "budget");
    assert Get(DefaultConfig, "budget") == Some(Obj(DefaultBudget)) by {
      DefaultConfigFacts();
    }
    assert Spread(OrEmpty(Some(Obj(DefaultBudget)))) == DefaultBudget;
  }

  /** The flags' budget entries merged over the default budget: today's amount is the daily flag's or
      fifty, the session's is the session flag's or absent. */
  lemma MergedBudgetAmounts(daily: Option<real>, session: Option<real>)
    ensures var b := MergeMembers(DefaultBudget, CliBudgetMembers(daily, session));
      && EntryAmount(b, "today") == Some(Num(if daily.Some? then daily.value else 50.0))
      && EntryAmount(b, "session") == if session.Some? then Some(Num(session.value)) else None
  {
    var b := CliBudgetMembers(daily, session);
    BudgetEntries(daily.GetOr(0.0));
    BudgetEntries(session.GetOr(0.0));
    var b1: seq<Member> := if daily.Some? then [Member("today", Obj(Put(DefaultTodayBudget, "amount", Num(daily.value))))] else [];
    if session.Some? {
      PutKeepsUnique(b1, "session", Obj(Put(DefaultSessionBudget, "amount", Num(session.value))));
    }
    assert UniqueKeys(b);
    DefaultBudgetAmounts();
    MergedEntryToday(daily, session);
    MergedEntrySession(daily, session);
  }

  /** The two entries of the flags' budget object, each present only for its own flag. */
  lemma CliBudgetMembersGet(daily: Option<real>, session: Option<real>)
    ensures Get(CliBudgetMembers(daily, session), "today") ==
      if daily.Some? then Some(Obj([Member("amount", Num(daily.value)), Member("warningThreshold", Num(80.0))])) else None
    ensures Get(CliBudgetMembers(daily, session), "session") ==
      if session.Some? then Some(Obj([Member("warningThreshold", Num(80.0)), Member("amount", Num(session.value))])) else None
  {
    BudgetEntries(daily.GetOr(0.0));
    BudgetEntries(session.GetOr(0.0));
    if session.Some? {
      PutOther(if daily.Some? then [Member("today", Obj(Put(DefaultTodayBudget, "amount", Num(daily.value))))] else [],
        "session", Obj(Put(DefaultSessionBudget, "amount", Num(session.value))), "today");
    }
  }

  /** Today's amount after the merge: the daily flag's, or the default fifty. */
  lemma MergedEntryToday(daily: Option<real>, session: Option<real>)
    requires UniqueKeys(CliBudgetMembers(daily, session))
    ensures var b := MergeMembers(DefaultBudget, CliBudgetMembers(daily, session));
      EntryAmount(b, "today") == Some(Num(if daily.Some? then daily.value else 50.0))
  {
    CliBudgetMembersGet(daily, session);
    assert Get(DefaultBudget, "today") == Some(Obj(DefaultTodayBudget));
    if daily.Some? {
      MergeByKeyObject(DefaultBudget, CliBudgetMembers(daily, session), "today",
        [Member("amount", Num(daily.value)), Member("warningThreshold", Num(80.0))]);
      MergeByKeyValue(DefaultTodayBudget, [Member("amount", Num(daily.value)), Member("warningThreshold", Num(80.0))],
        "amount", Num(daily.value));
    } else {
      MergeByKeyAbsent(DefaultBudget, CliBudgetMembers(daily, session), "today");
    }
  }

  /** The session's amount after the merge: the session flag's, or none. */
  lemma MergedEntrySession(daily: Option<real>, session: Option<real>)
    requires UniqueKeys(CliBudgetMembers(daily, session))
    ensures var b := MergeMembers(DefaultBudget, CliBudgetMembers(daily, session));
      EntryAmount(b, "session") == if session.Some? then Some(Num(session.value)) else None
  {
    CliBudgetMembersGet(daily, session);
    assert Get(DefaultBudget, "session") == Some(Obj(DefaultSessionBudget));
    if session.Some? {
      MergeByKeyObject(DefaultBudget, CliBudgetMembers(daily, session), "session",
        [Member("warningThreshold", Num(80.0)), Member("amount", Num(session.value))]);
      MergeByKeyValue(DefaultSessionBudget, [Member("warningThreshold", Num(80.0)), Member("amount", Num(session.value))],
        "amount", Num(session.value));
    } else {
      MergeByKeyAbsent(DefaultBudget, CliBudgetMembers(daily, session), "session");
      assert Get(DefaultSessionBudget, "amount") == None;
    }
  }

  /** With the defaults and the command line alone, today's budget is the daily flag's amount or fifty,
      and the session budget has the session flag's amount or none. */
  lemma CliOnlyBudget(args: seq<string>)
    ensures var daily := BudgetAmount(args, "--daily-budget=");
      BudgetAmountOf(CliOnly(args), "today") == Some(Num(if daily.Some? then daily.value else 50.0))
    ensures var session := BudgetAmount(args, "--session-budget=");
      BudgetAmountOf(CliOnly(args), "session") == if session.Some? then Some(Num(session.value)) else None
  {
    var daily := BudgetAmount(args, "--daily-budget=");
    var session := BudgetAmount(args, "--session-budget=");
    CliOnlyBudgetObject(args);
    if daily.None? && session.None? {
      DefaultBudgetAmounts();
    } else {
      MergedBudgetAmounts(daily, session);
    }
  }

  /** After the `usageType` step, today's budget is still the daily flag's amount or fifty, and the
      session budget the session flag's amount or none. */
  lemma CliOnlyPropagatedBudget(args: seq<string>)
    ensures Propagated(CliOnly(args)).Some?
    ensures var c := Propagated(CliOnly(args)).value;
      var daily := BudgetAmount(args, "--daily-budget=");
      var session := BudgetAmount(args, "--session-budget=");
      && BudgetAmountOf(c, "today") == Some(Num(if daily.Some? then daily.value else 50.0))
      && BudgetAmountOf(c, "session") == if session.Some? then Some(Num(session.value)) else None
  {
    CliOnlyPropagatedLines(args);
    CliOnlyBudget(args);
    PropagatedKeepsKey(CliOnly(args), "budget");
  }

  /** The `usageType` step on the defaults with the command line merged in succeeds, and sets the flag's
      usage type on the default line's segments or leaves that line alone. */
  lemma CliOnlyPropagatedLines(args: seq<string>)
    ensures Propagated(CliOnly(args)).Some?
    ensures var c := Propagated(CliOnly(args)).value;
      var usage := FlagValue(args, "--usage=");
      && |Lines(c)| == 1
      && (usage.Some? && usage.value in UsageTypes ==>
            && SegmentType(Lines(c)[0], "session") == Some(Str(usage.value))
            && SegmentType(Lines(c)[0], "today") == Some(Str(usage.value))
            && SegmentType(Lines(c)[0], "block") == Some(BlockType(Str(usage.value))))
      && (!(usage.Some? && usage.value in UsageTypes) ==> Lines(c) == DefaultLines)
  {
    CliOnlyLines(args);
    CliOnlyUsage(args);
    CliUsage(args);
    UsageReachesDefaultLines(CliOnly(args), FlagValue(args, "--usage="));
  }

  /** The default lines under a usage type from the command line: a known one reaches the segments,
      otherwise the lines stay. */
  lemma UsageReachesDefaultLines(config: seq<Member>, usage: Option<string>)
    requires Lines(config) == DefaultLines
    requires Get(config, "usageType") == if usage.Some? && usage.value in UsageTypes then Some(Str(usage.value)) else None
    ensures Propagated(config).Some?
    ensures var c := Propagated(config).value;
      && |Lines(c)| == 1
      && (usage.Some? && usage.value in UsageTypes ==>
            && SegmentType(Lines(c)[0], "session") == Some(Str(usage.value))
            && SegmentType(Lines(c)[0], "today") == Some(Str(usage.value))
            && SegmentType(Lines(c)[0], "block") == Some(BlockType(Str(usage.value))))
      && (!(usage.Some? && usage.value in UsageTypes) ==> Lines(c) == DefaultLines)
  {
    DefaultLinesTakeUsage(config);
    if usage.Some? && usage.value in UsageTypes {
      assert usage.value != "";
    }
  }


  /** A configuration showing the default lines passes the `usageType` step: a truthy usage type reaches
      the default line's segments, and without one the lines stay. */
  lemma DefaultLinesTakeUsage(config: seq<Member>)
    requires Lines(config) == DefaultLines
    ensures Propagated(config).Some?
    ensures var c := Propagated(config).value;
      var t := Get(config, "usageType");
      && |Lines(c)| == 1
      && (t.Some? && Truthy(t.value) ==>
            && SegmentType(Lines(c)[0], "session") == Some(t.value)
            && SegmentType(Lines(c)[0], "today") == Some(t.value)
            && SegmentType(Lines(c)[0], "block") == Some(BlockType(t.value)))
      && (!(t.Some? && Truthy(t.value)) ==> Lines(c) == DefaultLines)
  {
    var t := Get(config, "usageType");
    if t.Some? && Truthy(t.value) {
      DefaultLinesPropagate(t.value);
      assert Propagated(config).Some?;
      PropagatedLinesOfConfig(config);
    }
  }


}
