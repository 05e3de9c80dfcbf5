/** The context-window estimate: the most recent main-chain record that reports input tokens, the
    tokens it puts in the window, and that count as percentages of the window and of its usable part. */
module Context {
  import opened Wrappers
  import opened Text
  import opened Transcript

  datatype ContextInfo = ContextInfo(
    inputTokens: nat,
    percentage: int,
    usablePercentage: int,
    contextLeftPercentage: int,
    maxTokens: nat,
    usableTokens: nat)

  datatype Thresholds = Thresholds(low: int, medium: int)

  /** `getContextUsageThresholds`. */
  const ContextUsageThresholds := Thresholds(50, 80)

  const DefaultContextLimit: nat := 200000

  /** `getContextLimit`: every model has the same window. */
  function ContextLimit(modelId: string): nat {
    200000
  }

  /** A record the scan considers: non-zero input tokens, main chain, and a timestamp. */
  predicate Qualifies(line: Line) {
    && line.Some?
    && line.value.usage.Some?
    && Count(line.value.usage.value.inputTokens) > 0
    && !line.value.isSidechain
    && line.value.timestamp.Some?
  }

  function TimeOf(line: Line): int
    requires Qualifies(line)
  {
    line.value.timestamp.value
  }

  /** The state of the scan after the given lines: the greatest time seen so far (starting from 0) and
      the record that first reached it. */
  function ScanState(lines: seq<Line>): (state: (Line, int))
    ensures state.0.Some? ==> Qualifies(state.0) && state.1 == TimeOf(state.0) && state.1 > 0
    ensures state.0.None? ==> state.1 == 0
  {
    if lines == [] then (None, 0)
    else
      var state := ScanState(lines[..|lines| - 1]);
      var line := lines[|lines| - 1];
      if Qualifies(line) && TimeOf(line) > state.1 then (line, TimeOf(line)) else state
  }

  function MostRecent(lines: seq<Line>): Line {
    ScanState(lines).0
  }

  /** No qualifying record is later than the chosen one; with none chosen, none has a positive time. */
  lemma {:induction false} MostRecentIsLatest(lines: seq<Line>)
    ensures forall j :: 0 <= j < |lines| && Qualifies(lines[j]) ==> TimeOf(lines[j]) <= ScanState(lines).1
  {
    if lines != [] {
      var p := lines[..|lines| - 1];
      MostRecentIsLatest(p);
      assert forall j :: 0 <= j < |p| ==> lines[j] == p[j];
    }
  }

  /** The chosen record is a line of the file, and every qualifying line before it is strictly earlier:
      on equal times the earlier line is kept. */
  lemma {:induction false} MostRecentIsFirstOfItsTime(lines: seq<Line>)
    ensures var (r, t) := ScanState(lines);
      r.Some? ==> exists i ::
        && 0 <= i < |lines| && lines[i] == r
        && (forall j :: 0 <= j < i && Qualifies(lines[j]) ==> TimeOf(lines[j]) < t)
  {
    if lines != [] {
      var p := lines[..|lines| - 1];
      var (r0, t0) := ScanState(p);
      var (r, t) := ScanState(lines);
      assert forall j :: 0 <= j < |p| ==> lines[j] == p[j];
      if r.Some? {
        if r0.Some? && r == r0 && t == t0 {
          MostRecentIsFirstOfItsTime(p);
          var i :| 0 <= i < |p| && p[i] == r0 && forall j :: 0 <= j < i && Qualifies(p[j]) ==> TimeOf(p[j]) < t0;
          assert lines[i] == r;
        } else {
          MostRecentIsLatest(p);
          assert lines[|lines| - 1] == r;
        }
      }
    }
  }

  /** `(usage.input_tokens || 0) + (usage.cache_read_input_tokens || 0) + (usage.cache_creation_input_tokens || 0)`:
      output tokens are not in the window. */
  function ContextLength(u: Usage): (n: nat)
    ensures n >= Count(u.inputTokens)
    ensures n + Count(u.outputTokens) == UsageTokens(u)
  {
    Count(u.inputTokens) + Count(u.cacheReadInputTokens) + Count(u.cacheCreationInputTokens)
  }

  /** `Math.min(100, Math.max(0, Math.round(length / limit * 100)))`. */
  function ClampedPercent(length: nat, limit: nat): (p: int)
    requires limit > 0
    ensures 0 <= p <= 100
  {
    var raw := Round(length as real / limit as real * 100.0);
    if raw < 0 then 0 else if raw > 100 then 100 else raw
  }

  /** The estimate for a chosen record: the limit is that of the model, or 200000 without one. */
  function InfoFor(u: Usage, modelId: Option<string>): ContextInfo {
    var length := ContextLength(u);
    var limit := if Truthy(modelId) then ContextLimit(modelId.value) else DefaultContextLimit;
    var usableLimit := Round(limit as real * 0.8);
    var percentage := ClampedPercent(length, limit);
    var usablePercentage := ClampedPercent(length, usableLimit);
    ContextInfo(length, percentage, usablePercentage, if 100 - usablePercentage > 0 then 100 - usablePercentage else 0,
                limit, usableLimit)
  }

  /** `calculateContextTokens` on the outcome of the read: None for a read error, an empty file, or a
      file without a qualifying record. */
  function ContextFor(read: Option<seq<Line>>, modelId: Option<string>): Option<ContextInfo> {
    if read.None? || read.value == [] then None
    else
      match MostRecent(read.value)
      case None => None
      case Some(e) => Some(InfoFor(e.usage.value, modelId))
  }

  /** The scan of `calculateContextTokens`. */
  method CalculateContextTokens(read: Option<seq<Line>>, modelId: Option<string>) returns (info: Option<ContextInfo>)
    ensures info == ContextFor(read, modelId)
  {
    if read.None? || read.value == [] {
      return None;
    }
    var lines := read.value;
    var mostRecentEntry: Option<Record> := None;
    var mostRecentTime := 0;
    for i := 0 to |lines|
      invariant (mostRecentEntry, mostRecentTime) == ScanState(lines[..i])
    {
      assert lines[..i + 1][..i] == lines[..i];
      var line := lines[i];
      if line.None? {
        continue;
      }
      var entry := line.value;
      if entry.usage.None? || Count(entry.usage.value.inputTokens) == 0 {
        continue;
      }
      if entry.isSidechain {
        continue;
      }
      if entry.timestamp.None? {
        continue;
      }
      var entryTime := entry.timestamp.value;
      if entryTime > mostRecentTime {
        mostRecentTime := entryTime;
        mostRecentEntry := Some(entry);
      }
    }
    assert lines[..|lines|] == lines;
    if mostRecentEntry.Some? {
      return Some(InfoFor(mostRecentEntry.value.usage.value, modelId));
    }
    return None;
  }

  /** With a window of 200000 tokens, rounding is exact integer arithmetic: the percentages are
      `(length + 1000) / 2000` and `(length + 800) / 1600`, capped at 100, and the rest is their complement. */
  lemma PercentagesExact(u: Usage, modelId: Option<string>)
    ensures var info := InfoFor(u, modelId);
      var n := ContextLength(u);
      && info.maxTokens == 200000 && info.usableTokens == 160000
      && info.percentage == (if (n + 1000) / 2000 > 100 then 100 else (n + 1000) / 2000)
      && info.usablePercentage == (if (n + 800) / 1600 > 100 then 100 else (n + 800) / 1600)
      && 0 <= info.contextLeftPercentage <= 100
      && info.contextLeftPercentage == 100 - info.usablePercentage
  {
    var n := ContextLength(u);
    assert Round(200000 as real * 0.8) == 160000;
    RoundOfWindowPercent(n);
    RoundOfUsablePercent(n);
  }

  /** `Math.round(x)` is the integer `k` with `k - 1/2 <= x < k + 1/2`. */
  lemma RoundIsUnique(x: real, k: int)
    requires k as real - 0.5 <= x < k as real + 0.5
    ensures Round(x) == k
  {
  }

  /** The rounded share of the 200000-token window, in integer arithmetic. */
  lemma RoundOfWindowPercent(n: nat)
    ensures Round(n as real / 200000 as real * 100.0) == (n + 1000) / 2000
  {
    var k := (n + 1000) / 2000;
    assert n as real / 200000 as real * 100.0 == n as real / 2000.0;
    assert (k * 2000) as real <= n as real + 1000.0 < (k * 2000) as real + 2000.0;
    RoundIsUnique(n as real / 2000.0, k);
  }

  /** The rounded share of the 160000 usable tokens, in integer arithmetic. */
  lemma RoundOfUsablePercent(n: nat)
    ensures Round(n as real / 160000 as real * 100.0) == (n + 800) / 1600
  {
    var k := (n + 800) / 1600;
    assert n as real / 160000 as real * 100.0 == n as real / 1600.0;
    assert (k * 1600) as real <= n as real + 800.0 < (k * 1600) as real + 1600.0;
    RoundIsUnique(n as real / 1600.0, k);
  }

  /** The worked example: 25000 + 5000 + 2000 is overtaken by the later 35000 + 8000 record; the
      sidechain record in between is ignored. */
  lemma Example43000()
    ensures var u := Usage(Some(35000), None, None, Some(8000));
      InfoFor(u, Some("claude-3-5-sonnet-20241022")) == ContextInfo(43000, 22, 27, 73, 200000, 160000)
  {
    PercentagesExact(Usage(Some(35000), None, None, Some(8000)), Some("claude-3-5-sonnet-20241022"));
  }

  /** 150000 input tokens of a 200000-token window: 75% used, 94% of the usable part, 6% left. */
  lemma Example150000(modelId: Option<string>)
    ensures InfoFor(Usage(Some(150000), None, None, None), modelId) == ContextInfo(150000, 75, 94, 6, 200000, 160000)
  {
    PercentagesExact(Usage(Some(150000), None, None, None), modelId);
  }

  /** The estimate does not depend on which model, if any, is named. */
  lemma SameLimitForEveryModel(read: Option<seq<Line>>, a: Option<string>, b: Option<string>)
    ensures ContextFor(read, a) == ContextFor(read, b)
  {
  }
}
