/** Session metrics computed from a transcript: response latency, session duration, message count, and
    the cost and token burn rates over a two-hour window. "No data" is None, never 0. */
module Metrics {
  import opened Wrappers
  import opened Text
  import opened Transcript
  import opened Pricing
  import opened Seqs

  // ---------------------------------------------------------------- loading

  /** The parsed lines of the file that are not sidechain records, in file order. */
  function MainChain(lines: seq<Line>): (entries: seq<Record>)
    ensures |entries| <= |lines|
    ensures forall e :: e in entries ==> !e.isSidechain && Some(e) in lines
  {
    if lines == [] then []
    else
      var prefix := MainChain(lines[..|lines| - 1]);
      var last := lines[|lines| - 1];
      if last.Some? && !last.value.isSidechain then prefix + [last.value] else prefix
  }

  /** Filtering distributes over concatenation, so the file order survives. */
  lemma {:induction false} MainChainAppend(a: seq<Line>, b: seq<Line>)
    ensures MainChain(a + b) == MainChain(a) + MainChain(b)
    decreases |b|
  {
    if b == [] {
      assert a + b == a;
    } else {
      var b' := b[..|b| - 1];
      assert (a + b)[..|a + b| - 1] == a + b';
      assert (a + b)[|a + b| - 1] == b[|b| - 1];
      MainChainAppend(a, b');
    }
  }

  /** Every parsed main-chain record of the file is kept. */
  lemma {:induction false} MainChainKeepsParsed(lines: seq<Line>, e: Record)
    requires Some(e) in lines && !e.isSidechain
    ensures e in MainChain(lines)
  {
    var last := lines[|lines| - 1];
    if last != Some(e) {
      var p := lines[..|lines| - 1];
      assert Some(e) in p by {
        var i :| 0 <= i < |lines| && lines[i] == Some(e);
        assert i < |lines| - 1;
        assert p[i] == lines[i];
      }
      MainChainKeepsParsed(p, e);
    }
  }

  /** `loadTranscriptEntries` after the read: no transcript (or a read error) is the empty list. */
  method LoadTranscriptEntries(transcript: Option<seq<Line>>) returns (entries: seq<Record>)
    ensures transcript.None? ==> entries == []
    ensures transcript.Some? ==> entries == MainChain(transcript.value)
  {
    entries := [];
    if transcript.None? {
      return;
    }
    var lines := transcript.value;
    for i := 0 to |lines|
      invariant entries == MainChain(lines[..i])
    {
      assert lines[..i + 1][..i] == lines[..i];
      var line := lines[i];
      if line.None? || line.value.isSidechain {
        continue;
      }
      entries := entries + [line.value];
    }
    assert lines[..|lines|] == lines;
  }

  // ---------------------------------------------------------------- roles and response times

  datatype Role = UserRole | AssistantRole | Unclassified

  /** `type || message.role || message.type`, then usage decides for an unknown kind. */
  function RoleOf(e: Record): (r: Role)
    ensures r == UserRole <==> MessageKind(e) in {Some("user"), Some("human")}
    ensures r == Unclassified <==> MessageKind(e) !in {Some("user"), Some("human"), Some("assistant"), Some("ai")} && e.usage.None?
  {
    var kind := MessageKind(e);
    if kind == Some("user") || kind == Some("human") then UserRole
    else if kind == Some("assistant") || kind == Some("ai") then AssistantRole
    else if e.usage.Some? then AssistantRole
    else Unclassified
  }

  /** A record whose time `calculateResponseTimes` collects under `role`. */
  predicate TimedAs(e: Record, role: Role) {
    e.timestamp.Some? && RoleOf(e) == role
  }

  /** TimedAs for a fixed role, as a test on records. */
  function TimedAsRole(role: Role): Record -> bool {
    e => TimedAs(e, role)
  }

  /** The timestamps of the timestamped records of the given role, in order. */
  function TimesOf(entries: seq<Record>, role: Role): (ts: seq<int>)
    ensures |ts| <= |entries|
  {
    if entries == [] then []
    else
      var prefix := TimesOf(entries[..|entries| - 1], role);
      var e := entries[|entries| - 1];
      if TimedAs(e, role) then prefix + [e.timestamp.value] else prefix
  }

  /** The collected times are those of the timestamped records of the role: one per such record, in
      file order, and none for any other record. */
  lemma {:induction false} TimesOfCollects(entries: seq<Record>, role: Role)
    ensures var ts := TimesOf(entries, role);
      var idx := IndicesWhere(entries, TimedAsRole(role));
      |ts| == |idx| && forall k :: 0 <= k < |idx| ==> ts[k] == entries[idx[k]].timestamp.value
  {
    if entries != [] {
      var prefix, e := entries[..|entries| - 1], entries[|entries| - 1];
      TimesOfCollects(prefix, role);
      var ts, idx := TimesOf(prefix, role), IndicesWhere(prefix, TimedAsRole(role));
      var ts', idx' := TimesOf(entries, role), IndicesWhere(entries, TimedAsRole(role));
      assert TimedAs(e, role) ==> ts' == ts + [e.timestamp.value] && idx' == idx + [|prefix|];
      assert !TimedAs(e, role) ==> ts' == ts && idx' == idx;
      forall k | 0 <= k < |idx'|
        ensures ts'[k] == entries[idx'[k]].timestamp.value
      {
        if k < |idx| {
          assert prefix[idx[k]] == entries[idx[k]];
        }
      }
    }
  }

  /** The latest user time strictly before `t`. */
  function LatestBefore(users: seq<int>, t: int): (r: Option<int>)
    ensures r.Some? ==> r.value in users && r.value < t && forall u :: u in users && u < t ==> u <= r.value
    ensures r.None? ==> forall u :: u in users ==> u >= t
  {
    if users == [] then None
    else
      var prefix := users[..|users| - 1];
      var rest := LatestBefore(prefix, t);
      var u := users[|users| - 1];
      assert users == prefix + [u];
      if u < t && (rest.None? || rest.value < u) then Some(u) else rest
  }

  /** `priorUsers` and `Math.max` over them, in one pass. */
  method LatestUserBefore(users: seq<int>, t: int) returns (r: Option<int>)
    ensures r == LatestBefore(users, t)
  {
    r := None;
    for j := 0 to |users|
      invariant r == LatestBefore(users[..j], t)
    {
      assert users[..j + 1][..j] == users[..j];
      if users[j] < t && (r.None? || r.value < users[j]) {
        r := Some(users[j]);
      }
    }
    assert users[..|users|] == users;
  }

  /** The response time kept for one assistant time, in seconds: inside the band (0.1 s, 300 s). */
  function GapFor(users: seq<int>, a: int): Option<real> {
    match LatestBefore(users, a)
    case None => None
    case Some(u) =>
      var gap := (a - u) as real / 1000.0;
      if 0.1 < gap < 300.0 then Some(gap) else None
  }

  function Gaps(assistants: seq<int>, users: seq<int>): seq<real> {
    if assistants == [] then []
    else
      var prefix := Gaps(assistants[..|assistants| - 1], users);
      match GapFor(users, assistants[|assistants| - 1])
      case Some(g) => prefix + [g]
      case None => prefix
  }

  function Sum(s: seq<real>): real {
    if s == [] then 0.0 else Sum(s[..|s| - 1]) + s[|s| - 1]
  }

  /** The mean of the kept response times, or None when there are no users, no assistants or no gap. */
  function ResponseTime(entries: seq<Record>): Option<real> {
    var users, assistants := TimesOf(entries, UserRole), TimesOf(entries, AssistantRole);
    if |users| == 0 || |assistants| == 0 then None
    else
      var gaps := Gaps(assistants, users);
      if |gaps| == 0 then None else Some(Sum(gaps) / |gaps| as real)
  }

  /** `calculateResponseTimes`: collect user and assistant times, pair, filter, average. */
  method CalculateResponseTimes(entries: seq<Record>) returns (r: Option<real>)
    ensures r == ResponseTime(entries)
  {
    var users: seq<int> := [];
    var assistants: seq<int> := [];
    for i := 0 to |entries|
      invariant users == TimesOf(entries[..i], UserRole)
      invariant assistants == TimesOf(entries[..i], AssistantRole)
    {
      assert entries[..i + 1][..i] == entries[..i];
      var e := entries[i];
      if e.timestamp.None? {
        continue;
      }
      var role := RoleOf(e);
      if role == UserRole {
        users := users + [e.timestamp.value];
      } else if role == AssistantRole {
        assistants := assistants + [e.timestamp.value];
      }
    }
    assert entries[..|entries|] == entries;
    if |users| == 0 || |assistants| == 0 {
      return None;
    }
    var responseTimes: seq<real> := [];
    for k := 0 to |assistants|
      invariant responseTimes == Gaps(assistants[..k], users)
    {
      assert assistants[..k + 1][..k] == assistants[..k];
      var gap := ResponseTimeFor(users, assistants[k]);
      if gap.Some? {
        responseTimes := responseTimes + [gap.value];
      }
    }
    assert assistants[..|assistants|] == assistants;
    if |responseTimes| == 0 {
      return None;
    }
    var sum := SumOf(responseTimes);
    return Some(sum / |responseTimes| as real);
  }

  /** The body of the pairing loop for one assistant time: the gap to the latest earlier user time, when
      there is one and it lies inside the band. */
  method ResponseTimeFor(users: seq<int>, assistantTime: int) returns (gap: Option<real>)
    ensures gap == GapFor(users, assistantTime)
  {
    gap := None;
    var userTime := LatestUserBefore(users, assistantTime);
    if userTime.Some? {
      var responseTime := (assistantTime - userTime.value) as real / 1000.0;
      if 0.1 < responseTime < 300.0 {
        gap := Some(responseTime);
      }
    }
  }

  /** The `reduce` that adds up the response times. */
  method SumOf(xs: seq<real>) returns (sum: real)
    ensures sum == Sum(xs)
  {
    sum := 0.0;
    for k := 0 to |xs|
      invariant sum == Sum(xs[..k])
    {
      assert xs[..k + 1][..k] == xs[..k];
      sum := sum + xs[k];
    }
    assert xs[..|xs|] == xs;
  }

  /** Every gap kept for the average lies strictly between 0.1 and 300 seconds. */
  lemma {:induction false} GapsInBand(assistants: seq<int>, users: seq<int>)
    ensures forall g :: g in Gaps(assistants, users) ==> 0.1 < g < 300.0
  {
    if assistants != [] {
      GapsInBand(assistants[..|assistants| - 1], users);
    }
  }

  /** A sum of values inside an open band lies inside the band scaled by the count. */
  lemma {:induction false} SumBounds(s: seq<real>, lo: real, hi: real)
    requires forall x :: x in s ==> lo < x < hi
    ensures s != [] ==> lo * |s| as real < Sum(s) < hi * |s| as real
  {
    if s != [] {
      var p := s[..|s| - 1];
      assert forall x :: x in p ==> x in s;
      SumBounds(p, lo, hi);
      assert s[|s| - 1] in s;
      assert Sum(s) == Sum(p) + s[|s| - 1];
      assert lo * |s| as real == lo * |p| as real + lo;
      assert hi * |s| as real == hi * |p| as real + hi;
    }
  }

  /** A total inside the scaled band gives a mean inside the band. */
  lemma {:induction false} MeanBetween(total: real, n: real, lo: real, hi: real)
    requires n > 0.0 && lo * n < total < hi * n
    ensures lo < total / n < hi
  {
    assert total / n - lo == (total - lo * n) / n;
    assert hi - total / n == (hi * n - total) / n;
  }

  /** A response time, when there is one, lies strictly inside (0.1 s, 300 s). */
  lemma {:induction false} ResponseTimeInBand(entries: seq<Record>)
    ensures var r := ResponseTime(entries); r.Some? ==> 0.1 < r.value < 300.0
  {
    var users, assistants := TimesOf(entries, UserRole), TimesOf(entries, AssistantRole);
    var gaps := Gaps(assistants, users);
    if |users| > 0 && |assistants| > 0 && |gaps| > 0 {
      GapsInBand(assistants, users);
      SumBounds(gaps, 0.1, 300.0);
      var n := |gaps| as real;
      MeanBetween(Sum(gaps), n, 0.1, 300.0);
    }
  }

  /** Every assistant time of a user-less transcript is unpaired: no response time. */
  lemma {:induction false} NoUsersNoResponseTime(entries: seq<Record>)
    requires forall e :: e in entries ==> RoleOf(e) != UserRole
    ensures ResponseTime(entries).None?
  {
    NoTimesOfAbsentRole(entries, UserRole);
  }

  /** A role no entry has contributes no timestamps. */
  lemma {:induction false} NoTimesOfAbsentRole(entries: seq<Record>, role: Role)
    requires forall e :: e in entries ==> RoleOf(e) != role
    ensures TimesOf(entries, role) == []
  {
    if entries != [] {
      var p := entries[..|entries| - 1];
      assert forall e :: e in p ==> e in entries;
      NoTimesOfAbsentRole(p, role);
      assert entries[|entries| - 1] in entries;
    }
  }

  // ---------------------------------------------------------------- durations and counts

  /** The timestamps present, in file order. */
  function Timestamps(entries: seq<Record>): (ts: seq<int>)
    ensures |ts| <= |entries|
  {
    if entries == [] then []
    else
      Timestamps(entries[..|entries| - 1])
        + if entries[|entries| - 1].timestamp.Some? then [entries[|entries| - 1].timestamp.value] else []
  }

  /** The timestamps are exactly those of the records. */
  lemma {:induction false} TimestampsMembers(entries: seq<Record>)
    ensures forall t :: t in Timestamps(entries) <==> exists e :: e in entries && e.timestamp == Some(t)
  {
    if entries != [] {
      var p := entries[..|entries| - 1];
      var e := entries[|entries| - 1];
      assert entries == p + [e];
      TimestampsMembers(p);
    }
  }

  function Min(s: seq<int>): (m: int)
    requires s != []
  {
    if |s| == 1 then s[0]
    else
      var m := Min(s[..|s| - 1]);
      if s[|s| - 1] < m then s[|s| - 1] else m
  }

  /** `Min` is an element, and no element is smaller. */
  lemma {:induction false} MinIsLeast(s: seq<int>)
    requires s != []
    ensures Min(s) in s && forall x :: x in s ==> Min(s) <= x
  {
    if |s| > 1 {
      var p := s[..|s| - 1];
      assert s == p + [s[|s| - 1]];
      MinIsLeast(p);
    }
  }

  function Max(s: seq<int>): (m: int)
    requires s != []
  {
    if |s| == 1 then s[0]
    else
      var m := Max(s[..|s| - 1]);
      if s[|s| - 1] > m then s[|s| - 1] else m
  }

  /** `Max` is an element, and no element is larger. */
  lemma {:induction false} MaxIsGreatest(s: seq<int>)
    requires s != []
    ensures Max(s) in s && forall x :: x in s ==> x <= Max(s)
  {
    if |s| > 1 {
      var p := s[..|s| - 1];
      assert s == p + [s[|s| - 1]];
      MaxIsGreatest(p);
    }
  }

  /** `calculateSessionDuration`: the span from the earliest to the latest timestamp (the ends of the
      sorted list) in seconds; None with fewer than two timestamps or a span that is not positive. */
  function SessionDuration(entries: seq<Record>): (d: Option<real>)
    ensures d.Some? ==> d.value > 0.0
    ensures d.Some? ==> exists first, last ::
      && first in Timestamps(entries) && last in Timestamps(entries)
      && (forall t :: t in Timestamps(entries) ==> first <= t <= last)
      && d.value == (last - first) as real / 1000.0
    ensures |Timestamps(entries)| < 2 ==> d.None?
  {
    var ts := Timestamps(entries);
    if |ts| < 2 then None
    else
      MinIsLeast(ts);
      MaxIsGreatest(ts);
      var span := Max(ts) - Min(ts);
      if span > 0 then Some(span as real / 1000.0) else None
  }

  /** Two hours, in milliseconds: older timestamps do not count towards the burn rate. */
  const BurnRateWindow: int := 2 * 60 * 60 * 1000

  /** The burn-rate floor: 30 minutes, in seconds. */
  const MinBurnSeconds: real := 1800.0

  function Recent(ts: seq<int>, now: int): (r: seq<int>)
    ensures |r| <= |ts|
  {
    if ts == [] then []
    else
      Recent(ts[..|ts| - 1], now) + if now - ts[|ts| - 1] < BurnRateWindow then [ts[|ts| - 1]] else []
  }

  /** The recent timestamps are those of the window, and only they. */
  lemma {:induction false} RecentMembers(ts: seq<int>, now: int)
    ensures forall t :: t in Recent(ts, now) <==> t in ts && now - t < BurnRateWindow
  {
    if ts != [] {
      var p := ts[..|ts| - 1];
      assert ts == p + [ts[|ts| - 1]];
      RecentMembers(p, now);
    }
  }

  /** `calculateBurnRateDuration` at time `now`: from the earliest timestamp of the last two hours to
      `now`, in seconds, but never less than 1800. */
  function BurnRateDuration(entries: seq<Record>, now: int): Option<real> {
    if entries == [] then None
    else
      var recent := Recent(Timestamps(entries), now);
      if recent == [] then None
      else
        var span := (now - Min(recent)) as real / 1000.0;
        Some(if span > MinBurnSeconds then span else MinBurnSeconds)
  }

  /** The burn-rate duration is at least 1800 s and, above the floor, measured from a timestamp inside
      the window; it is None exactly when no timestamp lies in the window. */
  lemma {:induction false} BurnRateDurationBounds(entries: seq<Record>, now: int)
    ensures var d := BurnRateDuration(entries, now);
      && (d.Some? ==> d.value >= 1800.0)
      && (d.None? <==> forall e :: e in entries && e.timestamp.Some? ==> now - e.timestamp.value >= BurnRateWindow)
      && (d.Some? && d.value > 1800.0 ==> exists t :: t in Timestamps(entries) && now - t < BurnRateWindow && d.value == (now - t) as real / 1000.0)
  {
    if entries != [] {
      TimestampsMembers(entries);
      RecentMembers(Timestamps(entries), now);
      var recent := Recent(Timestamps(entries), now);
      if recent != [] {
        MinIsLeast(recent);
        var m := Min(recent);
        assert m in Timestamps(entries);
        var e :| e in entries && e.timestamp == Some(m);
      } else {
        forall e | e in entries && e.timestamp.Some?
          ensures now - e.timestamp.value >= BurnRateWindow
        {
          assert e in entries && e.timestamp == Some(e.timestamp.value);
          assert e.timestamp.value !in recent;
        }
      }
    }
  }

  predicate IsUserRecord(e: Record) {
    RoleOf(e) == UserRole
  }

  /** `calculateMessageCount`: the number of records whose kind is user or human. */
  function MessageCount(entries: seq<Record>): (n: nat)
    ensures n == |IndicesWhere(entries, IsUserRecord)|
  {
    if entries == [] then 0
    else MessageCount(entries[..|entries| - 1]) + if IsUserRecord(entries[|entries| - 1]) then 1 else 0
  }

  /** Message counts add up over concatenated transcripts. */
  lemma {:induction false} MessageCountAppend(a: seq<Record>, b: seq<Record>)
    ensures MessageCount(a + b) == MessageCount(a) + MessageCount(b)
    decreases |b|
  {
    if b == [] {
      assert a + b == a;
    } else {
      assert (a + b)[..|a + b| - 1] == a + b[..|b| - 1];
      assert (a + b)[|a + b| - 1] == b[|b| - 1];
      MessageCountAppend(a, b[..|b| - 1]);
    }
  }

  // ---------------------------------------------------------------- deduplicated totals

  /** `${timestamp}-${JSON.stringify(usage || {})}` as a value: the timestamp (None prints as
      "undefined") and the usage, with `{}` for a record without usage. */
  type DedupKey = (Option<int>, Usage)

  function KeyOf(e: Record): DedupKey {
    (e.timestamp, e.usage.GetOr(EmptyUsage))
  }

  function KeySet(s: seq<Record>): set<DedupKey> {
    if s == [] then {} else KeySet(s[..|s| - 1]) + {KeyOf(s[|s| - 1])}
  }

  /** The key set holds exactly the keys of the records. */
  lemma {:induction false} KeySetMembers(s: seq<Record>)
    ensures forall e :: e in s ==> KeyOf(e) in KeySet(s)
    ensures forall k :: k in KeySet(s) ==> exists e :: e in s && KeyOf(e) == k
  {
    if s != [] {
      var p := s[..|s| - 1];
      assert s == p + [s[|s| - 1]];
      KeySetMembers(p);
    }
  }

  /** The records whose key does not occur earlier in the sequence: first occurrence wins. */
  function Dedup(s: seq<Record>): (r: seq<Record>)
    ensures |r| <= |s|
  {
    if s == [] then []
    else
      var p := s[..|s| - 1];
      var e := s[|s| - 1];
      Dedup(p) + if KeyOf(e) in KeySet(p) then [] else [e]
  }

  /** One step of Dedup: the last record is kept iff its key is new. */
  lemma {:induction false} DedupSnoc(s: seq<Record>, e: Record)
    ensures KeyOf(e) in KeySet(s) ==> Dedup(s + [e]) == Dedup(s)
    ensures KeyOf(e) !in KeySet(s) ==> Dedup(s + [e]) == Dedup(s) + [e]
    ensures KeySet(s + [e]) == KeySet(s) + {KeyOf(e)}
  {
    assert (s + [e])[..|s|] == s;
    assert Dedup(s) + [] == Dedup(s);
  }

  /** Deduplication keeps only input records, and never two with the same key. */
  lemma {:induction false} DedupDistinctKeys(s: seq<Record>)
    ensures var r := Dedup(s);
      && (forall i, j :: 0 <= i < j < |r| ==> KeyOf(r[i]) != KeyOf(r[j]))
      && (forall e :: e in r ==> e in s)
  {
    if s != [] {
      var p := s[..|s| - 1];
      var e := s[|s| - 1];
      assert s == p + [e];
      DedupDistinctKeys(p);
      DedupKeepsEveryKey(p);
      DedupSnoc(p, e);
      var r := Dedup(s);
      var q := Dedup(p);
      if KeyOf(e) !in KeySet(p) {
        forall i | 0 <= i < |q| ensures KeyOf(r[i]) != KeyOf(e) {
          assert r[i] == q[i];
          KeySetMembers(q);
          assert q[i] in q;
        }
      }
    }
  }

  /** Every key of the input is the key of some kept record. */
  lemma {:induction false} DedupKeepsEveryKey(s: seq<Record>)
    ensures KeySet(Dedup(s)) == KeySet(s)
  {
    if s != [] {
      var p := s[..|s| - 1];
      var e := s[|s| - 1];
      assert s == p + [e];
      DedupKeepsEveryKey(p);
      DedupSnoc(p, e);
      if KeyOf(e) !in KeySet(p) {
        DedupSnoc(Dedup(p), e);
      }
    }
  }

  /** The keys of concatenated entries are the union of their keys. */
  lemma {:induction false} KeySetAppend(a: seq<Record>, b: seq<Record>)
    ensures KeySet(a + b) == KeySet(a) + KeySet(b)
    decreases |b|
  {
    if b == [] {
      assert a + b == a;
    } else {
      assert (a + b)[..|a + b| - 1] == a + b[..|b| - 1];
      assert (a + b)[|a + b| - 1] == b[|b| - 1];
      KeySetAppend(a, b[..|b| - 1]);
    }
  }

  /** Records whose keys were all seen before add nothing. */
  lemma {:induction false} DedupIgnoresSeenKeys(s: seq<Record>, t: seq<Record>)
    requires forall e :: e in t ==> KeyOf(e) in KeySet(s)
    ensures Dedup(s + t) == Dedup(s)
    decreases |t|
  {
    if t == [] {
      assert s + t == s;
    } else {
      var t' := t[..|t| - 1];
      var e := t[|t| - 1];
      assert s + t == (s + t') + [e];
      assert forall x :: x in t' ==> x in t;
      DedupIgnoresSeenKeys(s, t');
      KeySetAppend(s, t');
      assert e in t;
      DedupSnoc(s + t', e);
    }
  }

  /** Replaying the whole transcript changes nothing. */
  lemma {:induction false} DedupReplay(s: seq<Record>)
    ensures Dedup(s + s) == Dedup(s)
  {
    KeySetMembers(s);
    DedupIgnoresSeenKeys(s, s);
  }

  /** What a record contributes to the cost: its own `costUSD` when it has one, else the computed cost. */
  function EntryCost(e: Record, table: PricedTable): real {
    if e.costUSD.Some? then e.costUSD.value
    else if e.usage.Some? then PricedCost(e, table)
    else 0.0
  }

  function SumCosts(s: seq<Record>, table: PricedTable): real {
    if s == [] then 0.0 else SumCosts(s[..|s| - 1], table) + EntryCost(s[|s| - 1], table)
  }

  /** One more entry adds its own cost to the running total. */
  lemma {:induction false} SumCostsSnoc(s: seq<Record>, e: Record, table: PricedTable)
    ensures SumCosts(s + [e], table) == SumCosts(s, table) + EntryCost(e, table)
  {
    assert (s + [e])[..|s|] == s;
  }

  /** `Math.round(x * 10000) / 10000`. */
  function RoundTo4(x: real): (r: real)
    ensures x - 0.00005 < r <= x + 0.00005
  {
    var n := Round(x * 10000.0);
    assert n as real - 0.5 <= x * 10000.0 < n as real + 0.5;
    n as real / 10000.0
  }

  /** `calculateTotalCost`, with the price table resolved once. */
  function TotalCost(entries: seq<Record>, table: PricedTable): real {
    RoundTo4(SumCosts(Dedup(entries), table))
  }

  /** Duplicating every record leaves the total cost unchanged. */
  lemma {:induction false} TotalCostReplay(entries: seq<Record>, table: PricedTable)
    ensures TotalCost(entries + entries, table) == TotalCost(entries, table)
  {
    DedupReplay(entries);
  }

  /** The loop of `calculateTotalCost` with its `processedEntries` set. */
  method CalculateTotalCost(entries: seq<Record>, table: PricedTable) returns (total: real)
    ensures total == TotalCost(entries, table)
  {
    total := 0.0;
    var processedEntries: set<DedupKey> := {};
    for i := 0 to |entries|
      invariant processedEntries == KeySet(entries[..i])
      invariant total == SumCosts(Dedup(entries[..i]), table)
    {
      var entry := entries[i];
      assert entries[..i + 1] == entries[..i] + [entry];
      DedupSnoc(entries[..i], entry);
      var entryKey := KeyOf(entry);
      if entryKey in processedEntries {
        continue;
      }
      processedEntries := processedEntries + {entryKey};
      SumCostsSnoc(Dedup(entries[..i]), entry, table);
      total := AddEntryCost(total, entry, table);
    }
    assert entries[..|entries|] == entries;
    total := RoundTo4(total);
  }

  /** One step of the loop of `calculateTotalCost`: add the record's own cost, or else its computed one. */
  method AddEntryCost(total: real, entry: Record, table: PricedTable) returns (sum: real)
    ensures sum == total + EntryCost(entry, table)
  {
    sum := total;
    if entry.costUSD.Some? {
      sum := total + entry.costUSD.value;
    } else if entry.usage.Some? {
      sum := total + PricedCost(entry, table);
    }
  }

  /** The records that carry usage; the others are skipped before the key is even formed. */
  function WithUsage(s: seq<Record>): seq<Record> {
    if s == [] then []
    else WithUsage(s[..|s| - 1]) + if s[|s| - 1].usage.Some? then [s[|s| - 1]] else []
  }

  /** One more entry is kept exactly when it carries usage. */
  lemma {:induction false} WithUsageSnoc(s: seq<Record>, e: Record)
    ensures e.usage.None? ==> WithUsage(s + [e]) == WithUsage(s)
    ensures e.usage.Some? ==> WithUsage(s + [e]) == WithUsage(s) + [e]
  {
    assert (s + [e])[..|s|] == s;
    assert WithUsage(s) + [] == WithUsage(s);
  }

  /** One more entry adds its own tokens to the running total. */
  lemma {:induction false} SumTokensSnoc(s: seq<Record>, e: Record)
    ensures SumTokens(s + [e]) == SumTokens(s) + UsageTokens(e.usage.GetOr(EmptyUsage))
  {
    assert (s + [e])[..|s|] == s;
  }

  function SumTokens(s: seq<Record>): nat {
    if s == [] then 0 else SumTokens(s[..|s| - 1]) + UsageTokens(s[|s| - 1].usage.GetOr(EmptyUsage))
  }

  /** `calculateTotalTokens`: the four counts of every first-seen usage record. */
  function TotalTokens(entries: seq<Record>): nat {
    SumTokens(Dedup(WithUsage(entries)))
  }

  /** Filtering on usage distributes over concatenation. */
  lemma {:induction false} WithUsageAppend(a: seq<Record>, b: seq<Record>)
    ensures WithUsage(a + b) == WithUsage(a) + WithUsage(b)
    decreases |b|
  {
    if b == [] {
      assert a + b == a;
    } else {
      assert (a + b)[..|a + b| - 1] == a + b[..|b| - 1];
      assert (a + b)[|a + b| - 1] == b[|b| - 1];
      WithUsageAppend(a, b[..|b| - 1]);
    }
  }

  /** Replaying a transcript twice does not double its token total: duplicates are dropped. */
  lemma {:induction false} TotalTokensReplay(entries: seq<Record>)
    ensures TotalTokens(entries + entries) == TotalTokens(entries)
  {
    WithUsageAppend(entries, entries);
    DedupReplay(WithUsage(entries));
  }

  /** The `reduce` of `calculateTotalTokens`, written as a loop over the records. */
  method CalculateTotalTokens(entries: seq<Record>) returns (total: nat)
    ensures total == TotalTokens(entries)
  {
    total := 0;
    var processedEntries: set<DedupKey> := {};
    for i := 0 to |entries|
      invariant processedEntries == KeySet(WithUsage(entries[..i]))
      invariant total == SumTokens(Dedup(WithUsage(entries[..i])))
    {
      var entry := entries[i];
      assert entries[..i + 1] == entries[..i] + [entry];
      ghost var prefix := WithUsage(entries[..i]);
      WithUsageSnoc(entries[..i], entry);
      if entry.usage.None? {
        continue;
      }
      DedupSnoc(prefix, entry);
      var entryKey := KeyOf(entry);
      if entryKey in processedEntries {
        continue;
      }
      processedEntries := processedEntries + {entryKey};
      SumTokensSnoc(Dedup(prefix), entry);
      total := total + UsageTokens(entry.usage.value);
    }
    assert entries[..|entries|] == entries;
  }

  // ---------------------------------------------------------------- the metrics record

  datatype MetricsInfo = MetricsInfo(
    responseTime: Option<real>,
    sessionDuration: Option<real>,
    messageCount: Option<nat>,
    costBurnRate: Option<real>,
    tokenBurnRate: Option<int>)

  const NoMetrics := MetricsInfo(None, None, None, None, None)

  /** The cost burn rate in dollars per hour, rounded to cents; None unless the total is positive. */
  function CostBurnRate(totalCost: real, hours: real): Option<real>
    requires hours > 0.0
  {
    if totalCost > 0.0 then Some(Round(totalCost / hours * 100.0) as real / 100.0) else None
  }

  /** The token burn rate in tokens per hour, rounded; None unless the total is positive. */
  function TokenBurnRate(totalTokens: nat, hours: real): Option<int>
    requires hours > 0.0
  {
    if totalTokens > 0 then Some(Round(totalTokens as real / hours)) else None
  }

  /** `getMetricsInfo` on the loaded records at time `now`. */
  function MetricsFor(entries: seq<Record>, now: int, table: PricedTable): MetricsInfo {
    if entries == [] then NoMetrics
    else
      var burns := BurnRates(entries, now, table);
      MetricsInfo(ResponseTime(entries), SessionDuration(entries), Some(MessageCount(entries)), burns.0, burns.1)
  }

  /** Both burn rates over the burn-rate duration, when that exceeds a minute (it always does once it exists). */
  function BurnRates(entries: seq<Record>, now: int, table: PricedTable): (Option<real>, Option<int>) {
    var duration := BurnRateDuration(entries, now);
    if duration.Some? && duration.value > 60.0 then
      var hours := duration.value / 3600.0;
      (CostBurnRate(TotalCost(entries, table), hours), TokenBurnRate(TotalTokens(entries), hours))
    else (None, None)
  }

  method CalculateBurnRates(entries: seq<Record>, now: int, table: PricedTable) returns (costBurnRate: Option<real>, tokenBurnRate: Option<int>)
    ensures (costBurnRate, tokenBurnRate) == BurnRates(entries, now, table)
  {
    costBurnRate, tokenBurnRate := None, None;
    var burnRateDuration := BurnRateDuration(entries, now);
    if burnRateDuration.Some? && burnRateDuration.value > 60.0 {
      var hoursElapsed := burnRateDuration.value / 3600.0;
      costBurnRate, tokenBurnRate := RatesOver(entries, table, hoursElapsed);
    }
  }

  /** Both totals, each divided by the hours elapsed. */
  method RatesOver(entries: seq<Record>, table: PricedTable, hoursElapsed: real)
    returns (costBurnRate: Option<real>, tokenBurnRate: Option<int>)
    requires hoursElapsed > 0.0
    ensures costBurnRate == CostBurnRate(TotalCost(entries, table), hoursElapsed)
    ensures tokenBurnRate == TokenBurnRate(TotalTokens(entries), hoursElapsed)
  {
    var totalCost := CalculateTotalCost(entries, table);
    var totalTokens := CalculateTotalTokens(entries);
    costBurnRate := CostBurnRate(totalCost, hoursElapsed);
    tokenBurnRate := TokenBurnRate(totalTokens, hoursElapsed);
  }

  /** No records gives five Nones; otherwise the message count is present, and each burn rate is present
      only when its total is positive and some timestamp lies in the last two hours. */
  lemma {:induction false} MetricsNullConvention(entries: seq<Record>, now: int, table: PricedTable)
    ensures var m := MetricsFor(entries, now, table);
      && (entries == [] ==> m == NoMetrics)
      && (entries != [] ==> m.messageCount == Some(MessageCount(entries)))
      && (m.costBurnRate.Some? ==> TotalCost(entries, table) > 0.0 && BurnRateDuration(entries, now).Some?)
      && (m.tokenBurnRate.Some? ==> TotalTokens(entries) > 0 && BurnRateDuration(entries, now).Some?)
      && (entries != [] && BurnRateDuration(entries, now).Some? && TotalCost(entries, table) > 0.0 ==> m.costBurnRate.Some?)
      && (entries != [] && BurnRateDuration(entries, now).Some? && TotalTokens(entries) > 0 ==> m.tokenBurnRate.Some?)
  {
    if entries != [] {
      BurnRateDurationBounds(entries, now);
    }
  }

  /** `getMetricsInfo` on the outcome of the read at time `now`. */
  method GetMetricsInfo(transcript: Option<seq<Line>>, now: int, table: PricedTable) returns (info: MetricsInfo)
    ensures info == MetricsFor(if transcript.None? then [] else MainChain(transcript.value), now, table)
  {
    var entries := LoadTranscriptEntries(transcript);
    if |entries| == 0 {
      return NoMetrics;
    }
    var responseTime := CalculateResponseTimes(entries);
    var sessionDuration := SessionDuration(entries);
    var messageCount := MessageCount(entries);
    var costBurnRate, tokenBurnRate := CalculateBurnRates(entries, now, table);
    return MetricsInfo(responseTime, sessionDuration, Some(messageCount), costBurnRate, tokenBurnRate);
  }
}
