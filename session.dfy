/** Session totals: every record with a usage object becomes a usage entry carrying its cost (its own
    `costUSD`, else the computed one); the totals are plain sums, without deduplication. */
module Session {
  import opened Wrappers
  import opened Transcript
  import opened Pricing
  import opened Seqs

  /** A usage entry: its timestamp (the current time when the record has none), usage and cost. */
  datatype SessionUsageEntry = SessionUsageEntry(timestamp: int, usage: Usage, costUSD: real)

  datatype SessionUsage = SessionUsage(totalCost: real, entries: seq<SessionUsageEntry>)

  datatype TokenBreakdown = TokenBreakdown(input: nat, output: nat, cacheCreation: nat, cacheRead: nat)

  datatype SessionInfo = SessionInfo(cost: Option<real>, tokens: Option<nat>, tokenBreakdown: Option<TokenBreakdown>)

  datatype UsageInfo = UsageInfo(session: SessionInfo)

  const NoSessionInfo := SessionInfo(None, None, None)

  /** The entry a parsed record becomes, if it has usage, at time `now`. */
  function EntryFor(e: Record, now: int, table: PricedTable): SessionUsageEntry
    requires e.usage.Some?
  {
    SessionUsageEntry(e.timestamp.GetOr(now), e.usage.value,
                      if e.costUSD.Some? then e.costUSD.value else PricedCost(e, table))
  }

  /** A line that becomes a usage entry: it parsed, and its record has usage. */
  predicate CarriesUsage(line: Line) {
    line.Some? && line.value.usage.Some?
  }

  /** The usage entries of the file, in file order. */
  function UsageEntries(lines: seq<Line>, now: int, table: PricedTable): (entries: seq<SessionUsageEntry>)
    ensures |entries| <= |lines|
  {
    if lines == [] then []
    else
      var prefix := UsageEntries(lines[..|lines| - 1], now, table);
      var line := lines[|lines| - 1];
      if CarriesUsage(line) then prefix + [EntryFor(line.value, now, table)] else prefix
  }

  /** The entries are one per line that parsed and has usage, in file order, each built from that line's
      record; unparseable lines and records without usage give nothing. */
  lemma {:induction false} UsageEntriesCollects(lines: seq<Line>, now: int, table: PricedTable)
    ensures var entries := UsageEntries(lines, now, table);
      var idx := IndicesWhere(lines, CarriesUsage);
      |entries| == |idx| && forall k :: 0 <= k < |idx| ==> entries[k] == EntryFor(lines[idx[k]].value, now, table)
  {
    if lines != [] {
      UsageEntriesCollects(lines[..|lines| - 1], now, table);
    }
  }

  function SumCosts(entries: seq<SessionUsageEntry>): real {
    if entries == [] then 0.0 else SumCosts(entries[..|entries| - 1]) + entries[|entries| - 1].costUSD
  }

  /** `getSessionUsage` on the outcome of the read: None when there is no transcript or reading fails. */
  function SessionUsageFor(read: Option<seq<Line>>, now: int, table: PricedTable): Option<SessionUsage> {
    match read
    case None => None
    case Some(lines) =>
      var entries := UsageEntries(lines, now, table);
      Some(SessionUsage(SumCosts(entries), entries))
  }

  /** The loop of `getSessionUsage`: the total is the sum of the costs recorded in the entries. */
  method GetSessionUsage(read: Option<seq<Line>>, now: int, table: PricedTable) returns (usage: Option<SessionUsage>)
    ensures usage == SessionUsageFor(read, now, table)
    ensures usage.Some? ==> usage.value.totalCost == SumCosts(usage.value.entries)
    ensures read == Some([]) ==> usage == Some(SessionUsage(0.0, []))
  {
    if read.None? {
      return None;
    }
    var lines := read.value;
    if |lines| == 0 {
      return Some(SessionUsage(0.0, []));
    }
    var entries: seq<SessionUsageEntry> := [];
    var totalCost := 0.0;
    for i := 0 to |lines|
      invariant entries == UsageEntries(lines[..i], now, table)
      invariant totalCost == SumCosts(entries)
    {
      assert lines[..i + 1][..i] == lines[..i];
      var line := lines[i];
      if line.None? || line.value.usage.None? {
        continue;
      }
      var entry := line.value;
      var cost: real;
      if entry.costUSD.Some? {
        cost := entry.costUSD.value;
      } else {
        cost := PricedCost(entry, table);
      }
      var sessionEntry := SessionUsageEntry(entry.timestamp.GetOr(now), entry.usage.value, cost);
      assert (entries + [sessionEntry])[..|entries|] == entries;
      totalCost := totalCost + cost;
      entries := entries + [sessionEntry];
    }
    assert lines[..|lines|] == lines;
    return Some(SessionUsage(totalCost, entries));
  }

  /** Usage entries are collected line by line, so they distribute over concatenation. */
  lemma {:induction false} UsageEntriesAppend(a: seq<Line>, b: seq<Line>, now: int, table: PricedTable)
    ensures UsageEntries(a + b, now, table) == UsageEntries(a, now, table) + UsageEntries(b, now, table)
    decreases |b|
  {
    if b == [] {
      assert a + b == a;
    } else {
      var b' := b[..|b| - 1];
      assert (a + b)[..|a + b| - 1] == a + b';
      assert (a + b)[|a + b| - 1] == b[|b| - 1];
      UsageEntriesAppend(a, b', now, table);
    }
  }

  /** Costs add up over concatenated entries. */
  lemma {:induction false} SumCostsAppend(a: seq<SessionUsageEntry>, b: seq<SessionUsageEntry>)
    ensures SumCosts(a + b) == SumCosts(a) + SumCosts(b)
    decreases |b|
  {
    if b == [] {
      assert a + b == a;
    } else {
      var b' := b[..|b| - 1];
      assert (a + b)[..|a + b| - 1] == a + b';
      assert (a + b)[|a + b| - 1] == b[|b| - 1];
      SumCostsAppend(a, b');
    }
  }

  /** There is no deduplication: a transcript read twice over counts every entry twice. */
  lemma ReplayCountsTwice(lines: seq<Line>, now: int, table: PricedTable)
    ensures var once := SessionUsageFor(Some(lines), now, table).value;
      var twice := SessionUsageFor(Some(lines + lines), now, table).value;
      twice.entries == once.entries + once.entries && twice.totalCost == 2.0 * once.totalCost
  {
    UsageEntriesAppend(lines, lines, now, table);
    SumCostsAppend(UsageEntries(lines, now, table), UsageEntries(lines, now, table));
  }

  /** A recorded `costUSD` is taken verbatim; otherwise the cost is computed from the usage. */
  lemma CostPrecedence(e: Record, now: int, table: PricedTable)
    requires e.usage.Some?
    ensures UsageEntries([Some(e)], now, table) == [EntryFor(e, now, table)]
    ensures e.costUSD.Some? ==> EntryFor(e, now, table).costUSD == e.costUSD.value
    ensures e.costUSD.None? ==> CostForEntry(e, table) == Some(EntryFor(e, now, table).costUSD)
  {
    assert [Some(e)][..0] == [];
  }

  // ---------------------------------------------------------------- token breakdown

  const ZeroBreakdown := TokenBreakdown(0, 0, 0, 0)

  function Add(b: TokenBreakdown, u: Usage): TokenBreakdown {
    TokenBreakdown(b.input + Count(u.inputTokens), b.output + Count(u.outputTokens),
                   b.cacheCreation + Count(u.cacheCreationInputTokens), b.cacheRead + Count(u.cacheReadInputTokens))
  }

  /** `calculateTokenBreakdown`: the component-wise sum of the entries' counts, absent counts as 0. */
  function Breakdown(entries: seq<SessionUsageEntry>): TokenBreakdown {
    if entries == [] then ZeroBreakdown
    else Add(Breakdown(entries[..|entries| - 1]), entries[|entries| - 1].usage)
  }

  function Total(b: TokenBreakdown): nat {
    b.input + b.output + b.cacheCreation + b.cacheRead
  }

  function SumUsageTokens(entries: seq<SessionUsageEntry>): nat {
    if entries == [] then 0 else SumUsageTokens(entries[..|entries| - 1]) + UsageTokens(entries[|entries| - 1].usage)
  }

  /** The breakdown's total is the sum of every entry's four counts. */
  lemma {:induction false} BreakdownTotal(entries: seq<SessionUsageEntry>)
    ensures Total(Breakdown(entries)) == SumUsageTokens(entries)
  {
    if entries != [] {
      BreakdownTotal(entries[..|entries| - 1]);
    }
  }

  function Plus(a: TokenBreakdown, b: TokenBreakdown): TokenBreakdown {
    TokenBreakdown(a.input + b.input, a.output + b.output, a.cacheCreation + b.cacheCreation, a.cacheRead + b.cacheRead)
  }

  /** The breakdown of two runs of entries is the component-wise sum of their breakdowns. */
  lemma {:induction false} BreakdownAppend(a: seq<SessionUsageEntry>, b: seq<SessionUsageEntry>)
    ensures Breakdown(a + b) == Plus(Breakdown(a), Breakdown(b))
    decreases |b|
  {
    if b == [] {
      assert a + b == a;
      assert Breakdown(b) == ZeroBreakdown;
    } else {
      var b' := b[..|b| - 1];
      var u := b[|b| - 1].usage;
      assert Breakdown(b) == Add(Breakdown(b'), u);
      assert (a + b)[..|a + b| - 1] == a + b';
      assert (a + b)[|a + b| - 1] == b[|b| - 1];
      assert Breakdown(a + b) == Add(Breakdown(a + b'), u);
      BreakdownAppend(a, b');
      AddAssociates(Breakdown(a), Breakdown(b'), u);
    }
  }

  /** Adding one usage to a sum of breakdowns is adding it to the last one. */
  lemma AddAssociates(x: TokenBreakdown, y: TokenBreakdown, u: Usage)
    ensures Add(Plus(x, y), u) == Plus(x, Add(y, u))
  {
  }

  /** The two-entry example: 1000/500/100/- and 1500/750/-/200 give 2500, 1250, 100, 200. */
  lemma BreakdownExample()
    ensures Breakdown([SessionUsageEntry(0, Usage(Some(1000), Some(500), Some(100), None), 0.05),
                       SessionUsageEntry(60000, Usage(Some(1500), Some(750), None, Some(200)), 0.08)])
      == TokenBreakdown(2500, 1250, 100, 200)
  {
    var es := [SessionUsageEntry(0, Usage(Some(1000), Some(500), Some(100), None), 0.05),
               SessionUsageEntry(60000, Usage(Some(1500), Some(750), None, Some(200)), 0.08)];
    assert es[..1][..0] == [];
    assert es[..1] == [es[0]];
  }

  // ---------------------------------------------------------------- session info

  /** `getSessionInfo` on a session usage: a null triple without usage or entries, otherwise the total
      cost, the breakdown, and its four components summed. */
  function SessionInfoFor(usage: Option<SessionUsage>): SessionInfo {
    if usage.None? || |usage.value.entries| == 0 then NoSessionInfo
    else
      var b := Breakdown(usage.value.entries);
      SessionInfo(Some(usage.value.totalCost), Some(Total(b)), Some(b))
  }

  /** When present, the session cost is the sum of the entries' costs and the token count the sum of
      their four counts; it is absent exactly when the read failed or no record had usage. */
  lemma SessionInfoSums(read: Option<seq<Line>>, now: int, table: PricedTable)
    ensures var info := SessionInfoFor(SessionUsageFor(read, now, table));
      && (info == NoSessionInfo <==> read.None? || UsageEntries(read.value, now, table) == [])
      && (read.Some? && info != NoSessionInfo ==>
            && info.cost == Some(SumCosts(UsageEntries(read.value, now, table)))
            && info.tokens == Some(SumUsageTokens(UsageEntries(read.value, now, table))))
  {
    if read.Some? {
      BreakdownTotal(UsageEntries(read.value, now, table));
    }
  }

  method GetSessionInfo(read: Option<seq<Line>>, now: int, table: PricedTable) returns (info: SessionInfo)
    ensures info == SessionInfoFor(SessionUsageFor(read, now, table))
  {
    var usage := GetSessionUsage(read, now, table);
    info := SessionInfoFor(usage);
  }

  /** `getUsageInfo`: the session info wrapped; nothing in the modelled computation throws. */
  method GetUsageInfo(read: Option<seq<Line>>, now: int, table: PricedTable) returns (info: UsageInfo)
    ensures info == UsageInfo(SessionInfoFor(SessionUsageFor(read, now, table)))
  {
    var session := GetSessionInfo(read, now, table);
    info := UsageInfo(session);
  }
}
