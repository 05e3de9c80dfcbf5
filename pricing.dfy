/** Per-model unit prices (dollars per million tokens): the tiered cache that resolves the price table
    (memory, fresh disk file, network document, stale disk file, compiled-in table), the fuzzy matcher
    from a model identifier to a row of that table, and the cost of one transcript record. */
module Pricing {
  import opened Wrappers
  import opened Text
  import opened Transcript

  /** One row of the price table. `name` and `cacheWrite1h` are carried but never priced. A fetched row
      may lack `cacheWrite5m` (None), since the validator does not check it. */
  datatype ModelPricing = ModelPricing(
    name: Option<string>,
    input: real,
    output: real,
    cacheWrite5m: Option<real>,
    cacheWrite1h: Option<real>,
    cacheRead: real)

  /** A price table in the key order of the JSON object it came from. */
  type PricingTable = seq<(string, ModelPricing)>

  const DefaultModelId: string := "claude-3-5-sonnet-20241022"

  /** 24 hours, in milliseconds. */
  const CacheTtl: int := 24 * 60 * 60 * 1000

  function Row(key: string, name: string, input: real, output: real, w5m: real, w1h: real, read: real): (string, ModelPricing) {
    (key, ModelPricing(Some(name), input, output, Some(w5m), Some(w1h), read))
  }

  /** The compiled-in table used when neither cache nor network can supply one. */
  const OfflinePricingData: PricingTable := [
    Row("claude-3-haiku-20240307", "Claude 3 Haiku", 0.25, 1.25, 0.30, 0.50, 0.03),
    Row("claude-3-5-haiku-20241022", "Claude 3.5 Haiku", 0.80, 4.00, 1.00, 1.60, 0.08),
    Row("claude-3-5-haiku-latest", "Claude 3.5 Haiku Latest", 1.00, 5.00, 1.25, 2.00, 0.10),
    Row("claude-3-opus-latest", "Claude 3 Opus Latest", 15.00, 75.00, 18.75, 30.00, 1.50),
    Row("claude-3-opus-20240229", "Claude 3 Opus", 15.00, 75.00, 18.75, 30.00, 1.50),
    Row("claude-3-5-sonnet-latest", "Claude 3.5 Sonnet Latest", 3.00, 15.00, 3.75, 6.00, 0.30),
    Row("claude-3-5-sonnet-20240620", "Claude 3.5 Sonnet", 3.00, 15.00, 3.75, 6.00, 0.30),
    Row("claude-3-5-sonnet-20241022", "Claude 3.5 Sonnet", 3.00, 15.00, 3.75, 6.00, 0.30),
    Row("claude-opus-4-20250514", "Claude Opus 4", 15.00, 75.00, 18.75, 30.00, 1.50),
    Row("claude-opus-4-1", "Claude Opus 4.1", 15.00, 75.00, 18.75, 30.00, 1.50),
    Row("claude-opus-4-1-20250805", "Claude Opus 4.1", 15.00, 75.00, 18.75, 30.00, 1.50),
    Row("claude-sonnet-4-20250514", "Claude Sonnet 4", 3.00, 15.00, 3.75, 6.00, 0.30),
    Row("claude-4-opus-20250514", "Claude 4 Opus", 15.00, 75.00, 18.75, 30.00, 1.50),
    Row("claude-4-sonnet-20250514", "Claude 4 Sonnet", 3.00, 15.00, 3.75, 6.00, 0.30),
    Row("claude-3-7-sonnet-latest", "Claude 3.7 Sonnet Latest", 3.00, 15.00, 3.75, 6.00, 0.30),
    Row("claude-3-7-sonnet-20250219", "Claude 3.7 Sonnet", 3.00, 15.00, 3.75, 6.00, 0.30)
  ]

  /** `table[key]`: the row stored under exactly this key. */
  function Lookup(table: PricingTable, key: string): (r: Option<ModelPricing>)
    ensures r.Some? ==> (key, r.value) in table
    ensures r.None? ==> forall i :: 0 <= i < |table| ==> table[i].0 != key
  {
    if table == [] then None
    else if table[0].0 == key then Some(table[0].1)
    else Lookup(table[1..], key)
  }

  // ---------------------------------------------------------------- fuzzy model matching

  /** One row of the ordered pattern table: any fragment found in the lower-cased identifier selects
      the fallback key, provided the price table has that key. */
  datatype PatternRow = PatternRow(fragments: seq<string>, fallback: string)

  const ModelPatterns: seq<PatternRow> := [
    PatternRow(["opus-4-1", "claude-opus-4-1"], "claude-opus-4-1-20250805"),
    PatternRow(["opus-4", "claude-opus-4"], "claude-opus-4-20250514"),
    PatternRow(["sonnet-4", "claude-sonnet-4"], "claude-sonnet-4-20250514"),
    PatternRow(["sonnet-3.7", "3-7-sonnet"], "claude-3-7-sonnet-20250219"),
    PatternRow(["3-5-sonnet", "sonnet-3.5"], "claude-3-5-sonnet-20241022"),
    PatternRow(["3-5-haiku", "haiku-3.5"], "claude-3-5-haiku-20241022"),
    PatternRow(["haiku", "3-haiku"], "claude-3-haiku-20240307"),
    PatternRow(["opus"], "claude-opus-4-20250514"),
    PatternRow(["sonnet"], "claude-3-5-sonnet-20241022")
  ]

  /** `fragments.some(p => id.includes(p))`. */
  predicate AnyFragmentIn(fragments: seq<string>, id: string) {
    exists i :: 0 <= i < |fragments| && Contains(id, fragments[i])
  }

  /** The first row of `table` whose lower-cased key equals `lowerId`. */
  function CaseInsensitiveMatch(table: PricingTable, lowerId: string): (r: Option<ModelPricing>)
    ensures r.Some? ==> exists i :: 0 <= i < |table| && Lower(table[i].0) == lowerId && table[i].1 == r.value
    ensures r.None? ==> forall i :: 0 <= i < |table| ==> Lower(table[i].0) != lowerId
  {
    if table == [] then None
    else if Lower(table[0].0) == lowerId then Some(table[0].1)
    else
      var r := CaseInsensitiveMatch(table[1..], lowerId);
      assert r.Some? ==> exists i :: 0 < i < |table| && Lower(table[i].0) == lowerId && table[i].1 == r.value by {
        if r.Some? {
          var i :| 0 <= i < |table[1..]| && Lower(table[1..][i].0) == lowerId && table[1..][i].1 == r.value;
          assert table[i + 1] == table[1..][i];
        }
      }
      r
  }

  /** The first pattern row (in table order) that matches `lowerId` and whose fallback key exists. */
  function PatternMatch(rows: seq<PatternRow>, lowerId: string, table: PricingTable): (r: Option<ModelPricing>)
    ensures r.Some? ==> exists k :: 0 <= k < |rows| && AnyFragmentIn(rows[k].fragments, lowerId) && Lookup(table, rows[k].fallback) == r
    ensures r.None? ==> forall k :: 0 <= k < |rows| && AnyFragmentIn(rows[k].fragments, lowerId) ==> Lookup(table, rows[k].fallback).None?
  {
    if rows == [] then None
    else if AnyFragmentIn(rows[0].fragments, lowerId) && Lookup(table, rows[0].fallback).Some? then
      Lookup(table, rows[0].fallback)
    else
      var r := PatternMatch(rows[1..], lowerId, table);
      assert r.Some? ==> exists k :: 0 < k < |rows| && AnyFragmentIn(rows[k].fragments, lowerId) && Lookup(table, rows[k].fallback) == r by {
        if r.Some? {
          var k :| 0 <= k < |rows[1..]| && AnyFragmentIn(rows[1..][k].fragments, lowerId) && Lookup(table, rows[1..][k].fallback) == r;
          assert rows[k + 1] == rows[1..][k];
        }
      }
      r
  }

  /** The table synthesised for a model nothing matches when the table lacks the default key. */
  function UnknownModelPricing(modelId: string): ModelPricing {
    ModelPricing(Some(modelId + " (Unknown Model)"), 3.00, 15.00, Some(3.75), Some(6.00), 0.30)
  }

  /** The fuzzy matcher, stage by stage: case-insensitive key, pattern table, default key, synthesised row. */
  function FuzzyMatch(modelId: string, table: PricingTable): ModelPricing {
    var lowerId := Lower(modelId);
    match CaseInsensitiveMatch(table, lowerId)
    case Some(p) => p
    case None =>
      match PatternMatch(ModelPatterns, lowerId, table)
      case Some(p) => p
      case None => Lookup(table, DefaultModelId).GetOr(UnknownModelPricing(modelId))
  }

  /** `fuzzyMatchModel`: two scans with early returns, then the default. */
  method FuzzyMatchModel(modelId: string, table: PricingTable) returns (p: ModelPricing)
    ensures p == FuzzyMatch(modelId, table)
  {
    var lowerId := Lower(modelId);
    var i := 0;
    while i < |table|
      invariant 0 <= i <= |table|
      invariant forall j :: 0 <= j < i ==> Lower(table[j].0) != lowerId
    {
      if Lower(table[i].0) == lowerId {
        CaseInsensitiveFirst(table, lowerId, i);
        return table[i].1;
      }
      i := i + 1;
    }
    var hit := ScanPatterns(ModelPatterns, lowerId, table);
    if hit.Some? {
      return hit.value;
    }
    p := Lookup(table, DefaultModelId).GetOr(UnknownModelPricing(modelId));
  }

  /** `pattern.some(p => lowerId.includes(p))`, stopping at the first fragment found. */
  method AnyFragment(fragments: seq<string>, id: string) returns (hit: bool)
    ensures hit == AnyFragmentIn(fragments, id)
  {
    hit := false;
    var j := 0;
    while j < |fragments| && !hit
      invariant 0 <= j <= |fragments|
      invariant hit <==> exists m :: 0 <= m < j && Contains(id, fragments[m])
    {
      hit := Contains(id, fragments[j]);
      j := j + 1;
    }
  }

  /** The loop over the pattern table: the first matching row whose fallback key is in the table. */
  method ScanPatterns(rows: seq<PatternRow>, lowerId: string, table: PricingTable) returns (r: Option<ModelPricing>)
    ensures r == PatternMatch(rows, lowerId, table)
  {
    var k := 0;
    while k < |rows|
      invariant 0 <= k <= |rows|
      invariant PatternMatch(rows, lowerId, table) == PatternMatch(rows[k..], lowerId, table)
    {
      assert rows[k..][1..] == rows[k + 1..];
      var hit := AnyFragment(rows[k].fragments, lowerId);
      if hit {
        var found := Lookup(table, rows[k].fallback);
        if found.Some? {
          return found;
        }
      }
      k := k + 1;
    }
    return None;
  }

  /** Rows none of whose fragments occur can be skipped. */
  lemma {:induction false} SkipUnmatchedRows(rows: seq<PatternRow>, lowerId: string, table: PricingTable, k: nat)
    requires k <= |rows|
    requires forall j :: 0 <= j < k ==> !AnyFragmentIn(rows[j].fragments, lowerId)
    ensures PatternMatch(rows, lowerId, table) == PatternMatch(rows[k..], lowerId, table)
  {
    if k > 0 {
      SkipUnmatchedRows(rows[1..], lowerId, table, k - 1);
      assert rows[1..][k - 1..] == rows[k..];
    }
  }

  /** A pattern hit is a row of the table. */
  lemma PatternHitIsTableRow(rows: seq<PatternRow>, lowerId: string, table: PricingTable)
    ensures var r := PatternMatch(rows, lowerId, table);
      r.Some? ==> exists i :: 0 <= i < |table| && table[i].1 == r.value
  {
    var r := PatternMatch(rows, lowerId, table);
    if r.Some? {
      var k :| 0 <= k < |rows| && Lookup(table, rows[k].fallback) == r;
      var found := Lookup(table, rows[k].fallback);
      assert found.Some? && found.value == r.value;
      var i :| 0 <= i < |table| && table[i] == (rows[k].fallback, found.value);
    }
  }

  /** The scan stops at the first case-insensitive hit, which is the one CaseInsensitiveMatch returns. */
  lemma {:induction false} CaseInsensitiveFirst(table: PricingTable, lowerId: string, i: nat)
    requires i < |table| && Lower(table[i].0) == lowerId
    requires forall j :: 0 <= j < i ==> Lower(table[j].0) != lowerId
    ensures CaseInsensitiveMatch(table, lowerId) == Some(table[i].1)
  {
    if i > 0 {
      CaseInsensitiveFirst(table[1..], lowerId, i - 1);
    }
  }

  /** `getModelPricing`: the exact key first, then the fuzzy matcher. */
  function PricingForModel(modelId: string, table: PricingTable): ModelPricing {
    match Lookup(table, modelId)
    case Some(p) => p
    case None => FuzzyMatch(modelId, table)
  }

  /** An identifier that is a key of the table resolves to that key's row, whatever the pattern table says. */
  lemma ExactKeyWins(modelId: string, table: PricingTable, p: ModelPricing)
    requires (modelId, p) in table
    requires forall i, j :: 0 <= i < j < |table| ==> table[i].0 != table[j].0
    ensures PricingForModel(modelId, table) == p
  {
    var r := Lookup(table, modelId);
    assert r.Some?;
    assert (modelId, r.value) in table;
  }

  /** With no exact key, a key equal up to case is preferred to every pattern. */
  lemma CaseInsensitiveBeforePatterns(modelId: string, table: PricingTable, i: nat)
    requires Lookup(table, modelId).None?
    requires i < |table| && Lower(table[i].0) == Lower(modelId)
    ensures exists j :: 0 <= j < |table| && Lower(table[j].0) == Lower(modelId) && PricingForModel(modelId, table) == table[j].1
  {
  }

  /** Identifiers naming Opus 4.1 take the 4.1 row before the generic Opus 4 row can match. */
  lemma Opus41BeforeOpus4(modelId: string, table: PricingTable)
    requires Lookup(table, modelId).None? && CaseInsensitiveMatch(table, Lower(modelId)).None?
    requires Contains(Lower(modelId), "opus-4-1")
    requires Lookup(table, "claude-opus-4-1-20250805").Some?
    ensures PricingForModel(modelId, table) == Lookup(table, "claude-opus-4-1-20250805").value
  {
    assert AnyFragmentIn(ModelPatterns[0].fragments, Lower(modelId)) by {
      assert Contains(Lower(modelId), ModelPatterns[0].fragments[0]);
    }
  }

  /** An identifier that only says "opus" falls to the generic row and gets Opus 4 prices. */
  lemma GenericOpusIsOpus4(modelId: string, table: PricingTable)
    requires Lookup(table, modelId).None? && CaseInsensitiveMatch(table, Lower(modelId)).None?
    requires forall k :: 0 <= k < 7 ==> !AnyFragmentIn(ModelPatterns[k].fragments, Lower(modelId))
    requires Contains(Lower(modelId), "opus")
    requires Lookup(table, "claude-opus-4-20250514").Some?
    ensures PricingForModel(modelId, table) == Lookup(table, "claude-opus-4-20250514").value
  {
    var lowerId := Lower(modelId);
    SkipUnmatchedRows(ModelPatterns, lowerId, table, 7);
    var rest := ModelPatterns[7..];
    assert AnyFragmentIn(rest[0].fragments, lowerId) by {
      assert rest[0].fragments[0] == "opus";
    }
  }

  /** Resolution always yields a row: a row of the table, or (only when nothing at all matches and the
      default key is missing) the synthesised 3.00 / 15.00 / 3.75 / 0.30 row. */
  lemma ResolutionIsTableRowOrUnknown(modelId: string, table: PricingTable)
    ensures var p := PricingForModel(modelId, table);
      (exists i :: 0 <= i < |table| && table[i].1 == p) || p == UnknownModelPricing(modelId)
    ensures Lookup(table, DefaultModelId).Some? ==> exists i :: 0 <= i < |table| && table[i].1 == PricingForModel(modelId, table)
  {
    var p := PricingForModel(modelId, table);
    var lowerId := Lower(modelId);
    match Lookup(table, modelId) {
      case Some(q) =>
        assert (modelId, q) in table;
      case None =>
        PatternHitIsTableRow(ModelPatterns, lowerId, table);
        if CaseInsensitiveMatch(table, lowerId).None? && PatternMatch(ModelPatterns, lowerId, table).None?
          && Lookup(table, DefaultModelId).Some? {
          assert (DefaultModelId, Lookup(table, DefaultModelId).value) in table;
        }
    }
  }

  // ---------------------------------------------------------------- model id and entry cost

  /** `extractModelId`: `model`, then `message.model` (a string, or an object's `id`), then `model_id`,
      then the default identifier. A `message.model` object without a usable id stops the search. */
  function ExtractModelId(e: Record): (id: string)
    ensures id != ""
    ensures Truthy(e.model) ==> id == e.model.value
    ensures !Truthy(e.model) && e.messageModel.None? && !Truthy(e.modelId) ==> id == DefaultModelId
  {
    if Truthy(e.model) then e.model.value
    else if e.messageModel.Some? && e.messageModel.value != ModelName("") then
      match e.messageModel.value
      case ModelName(n) => n
      case ModelObject(i) => if Truthy(i) then i.value else DefaultModelId
      case ModelOther => DefaultModelId
    else if Truthy(e.modelId) then e.modelId.value
    else DefaultModelId
  }

  function PerMillion(tokens: nat, rate: real): real {
    (tokens as real / 1000000.0) * rate
  }

  /** `calculateCostForEntry`: 0 without usage; otherwise each count (absent as 0) per million tokens
      times its rate, cache creation priced at the 5-minute cache-write rate. None stands for NaN: a row
      without that rate makes `(n / 1_000_000) * undefined` NaN, even for n = 0, and so the whole sum. */
  function CostForEntry(e: Record, table: PricingTable): (c: Option<real>)
    ensures c.None? <==> e.usage.Some? && PricingForModel(ExtractModelId(e), table).cacheWrite5m.None?
    ensures e.usage.None? ==> c == Some(0.0)
  {
    match e.usage
    case None => Some(0.0)
    case Some(u) =>
      var p := PricingForModel(ExtractModelId(e), table);
      match p.cacheWrite5m
      case None => None
      case Some(w5m) =>
        Some(PerMillion(Count(u.inputTokens), p.input) + PerMillion(Count(u.outputTokens), p.output)
          + PerMillion(Count(u.cacheCreationInputTokens), w5m) + PerMillion(Count(u.cacheReadInputTokens), p.cacheRead))
  }

  /** A table every row of which carries the 5-minute cache-write rate. */
  predicate IsPricedTable(table: PricingTable) {
    forall i :: 0 <= i < |table| ==> table[i].1.cacheWrite5m.Some?
  }

  /** The tables from which every entry has a cost: the offline table, and every table the corrected
      resolution yields (PricedResolutionIsPriced). */
  type PricedTable = t: PricingTable | IsPricedTable(t)

  /** Every entry priced from a priced table has a cost, never NaN. */
  lemma PricedTableHasCost(e: Record, table: PricingTable)
    requires IsPricedTable(table)
    ensures CostForEntry(e, table).Some?
  {
    ResolutionIsTableRowOrUnknown(ExtractModelId(e), table);
  }

  /** The cost of an entry priced from a priced table. */
  function PricedCost(e: Record, table: PricedTable): (c: real)
    ensures CostForEntry(e, table) == Some(c)
  {
    PricedTableHasCost(e, table);
    CostForEntry(e, table).value
  }

  predicate NonNegativeRates(p: ModelPricing) {
    p.input >= 0.0 && p.output >= 0.0 && (p.cacheWrite5m.Some? ==> p.cacheWrite5m.value >= 0.0) && p.cacheRead >= 0.0
  }

  predicate AllRatesNonNegative(table: PricingTable) {
    forall i :: 0 <= i < |table| ==> NonNegativeRates(table[i].1)
  }

  /** Every rate of the offline table is non-negative, and every row has all of them. */
  lemma OfflineRatesNonNegative()
    ensures AllRatesNonNegative(OfflinePricingData)
    ensures IsPricedTable(OfflinePricingData)
  {
  }

  /** A non-negative rate gives a non-negative charge. */
  lemma PerMillionNonNegative(tokens: nat, rate: real)
    requires rate >= 0.0
    ensures PerMillion(tokens, rate) >= 0.0
  {
    assert tokens as real / 1000000.0 >= 0.0;
  }

  /** With non-negative rates every cost that is a number is at least 0. */
  lemma CostNonNegative(e: Record, table: PricingTable)
    requires AllRatesNonNegative(table)
    ensures CostForEntry(e, table).Some? ==> CostForEntry(e, table).value >= 0.0
  {
    if e.usage.Some? {
      var u := e.usage.value;
      var p := PricingForModel(ExtractModelId(e), table);
      ResolutionIsTableRowOrUnknown(ExtractModelId(e), table);
      assert NonNegativeRates(p);
      if p.cacheWrite5m.Some? {
        PerMillionNonNegative(Count(u.inputTokens), p.input);
        PerMillionNonNegative(Count(u.outputTokens), p.output);
        PerMillionNonNegative(Count(u.cacheCreationInputTokens), p.cacheWrite5m.value);
        PerMillionNonNegative(Count(u.cacheReadInputTokens), p.cacheRead);
      }
    }
  }

  /** An absent count is priced exactly as an explicit 0. */
  lemma AbsentCountsCostNothing(e: Record, table: PricingTable)
    requires e.usage.Some?
    ensures var u := e.usage.value;
      var zeroed := Usage(Some(Count(u.inputTokens)), Some(Count(u.outputTokens)),
                          Some(Count(u.cacheCreationInputTokens)), Some(Count(u.cacheReadInputTokens)));
      CostForEntry(e, table) == CostForEntry(e.(usage := Some(zeroed)), table)
  {
    var u := e.usage.value;
    var zeroed := Usage(Some(Count(u.inputTokens)), Some(Count(u.outputTokens)),
                        Some(Count(u.cacheCreationInputTokens)), Some(Count(u.cacheReadInputTokens)));
    assert ExtractModelId(e.(usage := Some(zeroed))) == ExtractModelId(e);
  }

  // ---------------------------------------------------------------- the tiered cache

  /** A value of the fetched pricing document before validation: an object whose rate fields are
      numbers (Some) or not (None), or something that is not an object at all. */
  datatype RawValue =
    | RawObject(name: Option<string>, input: Option<real>, output: Option<real>,
                cacheWrite5m: Option<real>, cacheWrite1h: Option<real>, cacheRead: Option<real>)
    | NotAnObject

  type RawDocument = seq<(string, RawValue)>

  /** `{ data, timestamp }`, the value kept in memory and in the cache file. */
  datatype CacheEntry = CacheEntry(data: PricingTable, timestamp: int)

  datatype Tier = MemoryTier | FreshDiskTier | NetworkTier | StaleDiskTier | OfflineTier

  /** What one resolution returns, which tier it came from, and the memory and disk caches afterwards. */
  datatype Resolution = Resolution(data: PricingTable, tier: Tier, memory: Option<CacheEntry>, disk: Option<CacheEntry>)

  /** The fetched document without its `_meta` key, keys otherwise in order. */
  function WithoutMeta(doc: RawDocument): (r: RawDocument)
    ensures forall i :: 0 <= i < |r| ==> r[i].0 != "_meta"
    ensures forall kv :: kv in doc && kv.0 != "_meta" ==> kv in r
    ensures forall kv :: kv in r ==> kv in doc
  {
    if doc == [] then []
    else if doc[0].0 == "_meta" then WithoutMeta(doc[1..])
    else [doc[0]] + WithoutMeta(doc[1..])
  }

  /** The copy loop that drops `_meta`. */
  method StripMeta(doc: RawDocument) returns (r: RawDocument)
    ensures r == WithoutMeta(doc)
  {
    r := [];
    var i := |doc|;
    while i > 0
      invariant 0 <= i <= |doc|
      invariant r == WithoutMeta(doc[i..])
    {
      i := i - 1;
      assert doc[i..][1..] == doc[i + 1..];
      if doc[i].0 != "_meta" {
        r := [doc[i]] + r;
      }
    }
    assert doc[0..] == doc;
  }

  /** The check the source applies to each value: an object with numeric input, output and cache_read. */
  predicate HasNumericRates(v: RawValue) {
    v.RawObject? && v.input.Some? && v.output.Some? && v.cacheRead.Some?
  }

  /** Every rate the cost formula reads is a number: the check above plus cache_write_5m. */
  predicate HasPricedRates(v: RawValue) {
    HasNumericRates(v) && v.cacheWrite5m.Some?
  }

  /** What `validatePricingData` accepts. */
  predicate IsValidPricingData(doc: RawDocument) {
    forall i :: 0 <= i < |doc| ==> HasNumericRates(doc[i].1)
  }

  /** `validatePricingData` as written: every value passes HasNumericRates. */
  method ValidatePricingData(doc: RawDocument) returns (ok: bool)
    ensures ok <==> forall i :: 0 <= i < |doc| ==> HasNumericRates(doc[i].1)
  {
    var i := 0;
    while i < |doc|
      invariant 0 <= i <= |doc|
      invariant forall j :: 0 <= j < i ==> HasNumericRates(doc[j].1)
    {
      if !HasNumericRates(doc[i].1) {
        return false;
      }
      i := i + 1;
    }
    return true;
  }

  /** The validator as written accepts a row without cache_write_5m, which the cost formula multiplies
      by: the source then computes NaN for every entry priced from that row. */
  lemma ValidatorAdmitsUnpricedRow()
    ensures var v := RawObject(None, Some(3.0), Some(15.0), None, None, Some(0.3));
      HasNumericRates(v) && !HasPricedRates(v)
  {
  }

  predicate IsPricedDocument(doc: RawDocument) {
    forall i :: 0 <= i < |doc| ==> HasPricedRates(doc[i].1)
  }

  /** The corrected validator: every value carries every priced rate. */
  method ValidatePricedDocument(doc: RawDocument) returns (ok: bool)
    ensures ok <==> forall i :: 0 <= i < |doc| ==> HasPricedRates(doc[i].1)
  {
    var i := 0;
    while i < |doc|
      invariant 0 <= i <= |doc|
      invariant forall j :: 0 <= j < i ==> HasPricedRates(doc[j].1)
    {
      if !HasPricedRates(doc[i].1) {
        return false;
      }
      i := i + 1;
    }
    return true;
  }

  /** A validated document read as a price table, key by key; each row carries cache_write_5m exactly
      when the document's value does. */
  function ToPricingTable(doc: RawDocument): (t: PricingTable)
    requires IsValidPricingData(doc)
    ensures |t| == |doc|
    ensures forall i :: 0 <= i < |doc| ==>
      && t[i].0 == doc[i].0 && t[i].1.input == doc[i].1.input.value
      && t[i].1.output == doc[i].1.output.value && t[i].1.cacheRead == doc[i].1.cacheRead.value
      && t[i].1.cacheWrite5m == doc[i].1.cacheWrite5m
    ensures IsPricedTable(t) <==> IsPricedDocument(doc)
  {
    if doc == [] then []
    else
      var v := doc[0].1;
      [(doc[0].0, ModelPricing(v.name, v.input.value, v.output.value, v.cacheWrite5m, v.cacheWrite1h, v.cacheRead.value))]
        + ToPricingTable(doc[1..])
  }

  /** `loadDiskCache`: an entry whose timestamp is 0 (falsy) reads as no entry. */
  function UsableDisk(disk: Option<CacheEntry>): (r: Option<CacheEntry>)
    ensures r.Some? ==> r == disk && r.value.timestamp != 0
  {
    if disk.Some? && disk.value.timestamp != 0 then disk else None
  }

  predicate IsFresh(now: int, e: CacheEntry) {
    now - e.timestamp < CacheTtl
  }

  /** The tiers after the network: `accepted` is the table the fetch supplied, when it validated. The
      memory entry and the cache file written are both stamped `now`. */
  function ResolveTiers(now: int, memory: Option<CacheEntry>, disk: Option<CacheEntry>,
                        accepted: Option<PricingTable>, diskWritable: bool): Resolution
  {
    if memory.Some? && IsFresh(now, memory.value) then
      Resolution(memory.value.data, MemoryTier, memory, disk)
    else
      var cached := UsableDisk(disk);
      if cached.Some? && IsFresh(now, cached.value) then
        Resolution(cached.value.data, FreshDiskTier, cached, disk)
      else if accepted.Some? then
        var data := accepted.value;
        Resolution(data, NetworkTier, Some(CacheEntry(data, now)), if diskWritable then Some(CacheEntry(data, now)) else disk)
      else if cached.Some? then
        Resolution(cached.value.data, StaleDiskTier, cached, disk)
      else
        Resolution(OfflinePricingData, OfflineTier, memory, disk)
  }

  /** The tier decision of `getCurrentPricing` at time `now`, given the memory cache, the cache file,
      the outcome of the fetch (None when the request fails, is not ok, or is not JSON), and whether
      writing the cache file succeeds. The fetched document is accepted on `validatePricingData`. */
  function ResolvePricing(now: int, memory: Option<CacheEntry>, disk: Option<CacheEntry>,
                          fetched: Option<RawDocument>, diskWritable: bool): Resolution
  {
    var accepted :=
      if fetched.Some? && IsValidPricingData(WithoutMeta(fetched.value)) then Some(ToPricingTable(WithoutMeta(fetched.value)))
      else None;
    ResolveTiers(now, memory, disk, accepted, diskWritable)
  }

  /** A memory entry younger than the TTL is returned as is; neither the disk nor the network is consulted. */
  lemma FreshMemoryShortCircuits(now: int, memory: Option<CacheEntry>, disk: Option<CacheEntry>, fetched: Option<RawDocument>,
                                 writable: bool, disk': Option<CacheEntry>, fetched': Option<RawDocument>, writable': bool)
    requires memory.Some? && now - memory.value.timestamp < CacheTtl
    ensures var r := ResolvePricing(now, memory, disk, fetched, writable);
      r.data == memory.value.data && r.memory == memory && r.disk == disk
      && ResolvePricing(now, memory, disk', fetched', writable').data == r.data
  {
  }

  /** A fresh cache file is promoted into memory unchanged and returned; the network is not consulted. */
  lemma FreshDiskPromoted(now: int, memory: Option<CacheEntry>, disk: Option<CacheEntry>, fetched: Option<RawDocument>, writable: bool)
    requires !(memory.Some? && IsFresh(now, memory.value))
    requires disk.Some? && disk.value.timestamp != 0 && IsFresh(now, disk.value)
    ensures var r := ResolvePricing(now, memory, disk, fetched, writable);
      r.data == disk.value.data && r.memory == disk && r.tier == FreshDiskTier && r.disk == disk
  {
  }

  /** Fetched data is accepted exactly when, without `_meta`, it passes `validatePricingData`; it is then
      returned row for row and kept in memory stamped `now`, and written to the cache file when that
      succeeds. */
  lemma NetworkDataAccepted(now: int, memory: Option<CacheEntry>, disk: Option<CacheEntry>, doc: RawDocument, writable: bool)
    requires !(memory.Some? && IsFresh(now, memory.value))
    requires !(UsableDisk(disk).Some? && IsFresh(now, UsableDisk(disk).value))
    ensures var r := ResolvePricing(now, memory, disk, Some(doc), writable);
      r.tier == NetworkTier <==> forall i :: 0 <= i < |WithoutMeta(doc)| ==> HasNumericRates(WithoutMeta(doc)[i].1)
    ensures var r := ResolvePricing(now, memory, disk, Some(doc), writable);
      var kept := WithoutMeta(doc);
      r.tier == NetworkTier ==>
        && |r.data| == |kept|
        && (forall i :: 0 <= i < |r.data| ==>
              r.data[i].0 == kept[i].0 && r.data[i].0 != "_meta" && r.data[i].1.cacheWrite5m == kept[i].1.cacheWrite5m)
        && r.memory == Some(CacheEntry(r.data, now))
        && r.disk == if writable then r.memory else disk
  {
  }

  /** When the fetch fails or does not pass `validatePricingData`, a cache file of any age is used, else
      the offline table. */
  lemma FallbackAfterFailedFetch(now: int, memory: Option<CacheEntry>, disk: Option<CacheEntry>, fetched: Option<RawDocument>, writable: bool)
    requires !(memory.Some? && IsFresh(now, memory.value))
    requires !(UsableDisk(disk).Some? && IsFresh(now, UsableDisk(disk).value))
    requires fetched.None? || !IsValidPricingData(WithoutMeta(fetched.value))
    ensures var r := ResolvePricing(now, memory, disk, fetched, writable);
      && (UsableDisk(disk).Some? ==> r.tier == StaleDiskTier && r.data == disk.value.data && r.memory == disk)
      && (UsableDisk(disk).None? ==> r.tier == OfflineTier && r.data == OfflinePricingData && r.memory == memory)
      && r.disk == disk
  {
  }

  /** Resolving again from the caches the first resolution left, with the network behaving the same,
      yields the same table: this is why one resolved table can stand for the source's re-resolution
      on every priced entry. */
  lemma ResolutionIsStable(now: int, memory: Option<CacheEntry>, disk: Option<CacheEntry>, fetched: Option<RawDocument>, writable: bool)
    ensures var r := ResolvePricing(now, memory, disk, fetched, writable);
      ResolvePricing(now, r.memory, r.disk, fetched, writable).data == r.data
  {
    var r := ResolvePricing(now, memory, disk, fetched, writable);
    if r.tier == NetworkTier {
      assert r.memory.Some? && IsFresh(now, r.memory.value);
    } else if r.tier == StaleDiskTier {
      assert r.memory == UsableDisk(disk) && !IsFresh(now, r.memory.value);
    }
  }

  /** The document a fetch may return that the program accepts although the cost formula cannot price
      it: one row, "m", without cache_write_5m. */
  const UnpricedDocument: RawDocument := [("m", RawObject(None, Some(3.0), Some(15.0), None, None, Some(0.3)))]

  /** With no usable cache, the program takes UnpricedDocument as the network table, keeps it in memory
      and on disk, and every entry with usage priced as "m" then costs NaN, whatever its counts; the
      corrected resolution falls back to the offline table instead. */
  lemma UnpricedDocumentCostsNaN(now: int, e: Record)
    requires e.usage.Some? && e.model == Some("m")
    ensures var r := ResolvePricing(now, None, None, Some(UnpricedDocument), true);
      && r.tier == NetworkTier && r.memory == r.disk == Some(CacheEntry(r.data, now))
      && CostForEntry(e, r.data).None?
    ensures ResolvePricedPricing(now, None, None, Some(UnpricedDocument), true).tier == OfflineTier
  {
    var doc := UnpricedDocument;
    assert WithoutMeta(doc) == doc by {
      assert WithoutMeta(doc[1..]) == [];
    }
    assert !HasPricedRates(doc[0].1);
    var r := ResolvePricing(now, None, None, Some(doc), true);
    assert r.data[0] == ("m", ModelPricing(None, 3.0, 15.0, None, None, 0.3));
    assert ExtractModelId(e) == "m";
  }

  // ---------------------------------------------------------------- the corrected resolution

  /** The tier decision with the corrected validator: a fetched document is accepted only when every
      value carries every rate the cost formula reads. */
  function ResolvePricedPricing(now: int, memory: Option<CacheEntry>, disk: Option<CacheEntry>,
                                fetched: Option<RawDocument>, diskWritable: bool): Resolution
  {
    var accepted :=
      if fetched.Some? && IsPricedDocument(WithoutMeta(fetched.value)) then Some(ToPricingTable(WithoutMeta(fetched.value)))
      else None;
    ResolveTiers(now, memory, disk, accepted, diskWritable)
  }

  /** Under the corrected validator a fetched document is accepted exactly when, without `_meta`, every
      value carries every priced rate; otherwise a cache file of any age is used, else the offline table. */
  lemma PricedNetworkDataAccepted(now: int, memory: Option<CacheEntry>, disk: Option<CacheEntry>, fetched: Option<RawDocument>, writable: bool)
    requires !(memory.Some? && IsFresh(now, memory.value))
    requires !(UsableDisk(disk).Some? && IsFresh(now, UsableDisk(disk).value))
    ensures var r := ResolvePricedPricing(now, memory, disk, fetched, writable);
      r.tier == NetworkTier <==> fetched.Some? && forall i :: 0 <= i < |WithoutMeta(fetched.value)| ==> HasPricedRates(WithoutMeta(fetched.value)[i].1)
    ensures var r := ResolvePricedPricing(now, memory, disk, fetched, writable);
      r.tier != NetworkTier ==>
        && (UsableDisk(disk).Some? ==> r.tier == StaleDiskTier && r.data == disk.value.data)
        && (UsableDisk(disk).None? ==> r.tier == OfflineTier && r.data == OfflinePricingData)
  {
  }

  /** The corrected resolution never yields an unpriced table when the caches it starts from hold
      priced tables, and what it leaves in the caches is priced too. */
  lemma PricedResolutionIsPriced(now: int, memory: Option<CacheEntry>, disk: Option<CacheEntry>, fetched: Option<RawDocument>, writable: bool)
    requires memory.Some? ==> IsPricedTable(memory.value.data)
    requires disk.Some? ==> IsPricedTable(disk.value.data)
    ensures var r := ResolvePricedPricing(now, memory, disk, fetched, writable);
      && IsPricedTable(r.data)
      && (r.memory.Some? ==> IsPricedTable(r.memory.value.data))
      && (r.disk.Some? ==> IsPricedTable(r.disk.value.data))
  {
    OfflineRatesNonNegative();
  }

  /** The two resolutions differ only on a fetched document that the program accepts and the corrected
      validator refuses, that is, one with a row lacking cache_write_5m. */
  lemma ResolutionsAgreeOnPricedDocuments(now: int, memory: Option<CacheEntry>, disk: Option<CacheEntry>, fetched: Option<RawDocument>, writable: bool)
    ensures ResolvePricedPricing(now, memory, disk, fetched, writable) != ResolvePricing(now, memory, disk, fetched, writable) ==>
      && fetched.Some? && IsValidPricingData(WithoutMeta(fetched.value))
      && exists i :: 0 <= i < |WithoutMeta(fetched.value)| && WithoutMeta(fetched.value)[i].1.cacheWrite5m.None?
  {
  }

  /** The source keeps the memory cache in a static map under one key; this object holds that entry and
      the cache file, which only this process writes. */
  class PricingService {
    var memoryCache: Option<CacheEntry>
    var diskCache: Option<CacheEntry>

    constructor(disk: Option<CacheEntry>)
      ensures memoryCache == None && diskCache == disk
    {
      memoryCache := None;
      diskCache := disk;
    }

    /** `getCurrentPricing`: never fails; each branch returns as soon as a tier supplies a table. */
    method GetCurrentPricing(now: int, fetched: Option<RawDocument>, diskWritable: bool) returns (data: PricingTable)
      modifies this
      ensures var r := ResolvePricing(now, old(memoryCache), old(diskCache), fetched, diskWritable);
        data == r.data && memoryCache == r.memory && diskCache == r.disk
    {
      if memoryCache.Some? && now - memoryCache.value.timestamp < CacheTtl {
        return memoryCache.value.data;
      }
      var diskCached := UsableDisk(diskCache);
      if diskCached.Some? && now - diskCached.value.timestamp < CacheTtl {
        memoryCache := diskCached;
        return diskCached.value.data;
      }
      if fetched.Some? {
        var pricingData := StripMeta(fetched.value);
        var ok := ValidatePricingData(pricingData);
        if ok {
          var table := ToPricingTable(pricingData);
          memoryCache := Some(CacheEntry(table, now));
          if diskWritable {
            diskCache := Some(CacheEntry(table, now));
          }
          return table;
        }
      }
      if diskCached.Some? {
        memoryCache := diskCached;
        return diskCached.value.data;
      }
      return OfflinePricingData;
    }

    /** `getModelPricing`: resolve the table, then the row for the identifier. */
    method GetModelPricing(modelId: string, now: int, fetched: Option<RawDocument>, diskWritable: bool) returns (p: ModelPricing)
      modifies this
      ensures var r := ResolvePricing(now, old(memoryCache), old(diskCache), fetched, diskWritable);
        p == PricingForModel(modelId, r.data) && memoryCache == r.memory && diskCache == r.disk
    {
      var table := GetCurrentPricing(now, fetched, diskWritable);
      var exact := Lookup(table, modelId);
      if exact.Some? {
        return exact.value;
      }
      p := FuzzyMatchModel(modelId, table);
    }
  }
}
