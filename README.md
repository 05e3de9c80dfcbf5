# claude-powerline accounting and rendering core, in Dafny

This project models the part of claude-powerline that turns a Claude Code session transcript and the
tool's configuration into the text of a status line:

- **Pricing** (`pricing.dfy`): the offline price table and the resolution of a model identifier to a
  row. The lookup tries the exact key, then a case-insensitive key, then the ordered pattern table,
  then the default model, and finally a synthesised row. The module also covers the cost of one
  transcript record and the three-tier choice of price table: memory cache, disk cache, then network
  with validation. `PricingService` is a class whose two cache fields its methods update; it accepts
  what the program's validator accepts. A corrected resolution, stated beside it, refuses rows the
  cost formula cannot price (see Findings).
- **Filtering by position** (`seqs.dfy`): the positions of a sequence that pass a test, the reference
  against which the transcript scans that keep some records are stated.
- **Transcript records** (`transcript.dfy`): the parsed JSONL record as the accounting code reads it.
  A count that JavaScript reads as `|| 0` is an `Option<nat>`.
- **Session totals** (`session.dfy`): the usage entries of a transcript, their summed cost, the token
  breakdown, and the session and usage info built from them.
- **Session metrics** (`metrics.dfy`): main-chain filtering, the mean response time, session
  duration, the burn-rate window, message count, and the deduplicated cost and token totals. It also
  covers the burn rates and `getMetricsInfo`.
- **Context window** (`context.dfy`): the scan for the most recent qualifying record and the window
  percentages.
- **Budgets and formatters** (`budget.dfy`, `formatters.dfy`): the budget percentage and its marker,
  and the cost, token and token-breakdown texts.
- **Colours** (`colors.dfy`): `hexToAnsi`, and `extractBgToFg` with its regular expression and its
  string-replace fallback.
- **Configuration loading** (`config_loader.dfy`): the recursive `deepMerge` of JSON-like trees, the
  environment and command-line overrides, and the style check. It also models the order in which
  defaults, file, environment and command line are applied, and the `usageType` step that rewrites
  each line's segment types.
- **Segment renderers** (`segment_renderer.dfy`, `segments_renderer.dfy`): the text of the
  directory, git, session, today, block, tmux, context and metrics segments.
  - The renderer in src/segments/renderer.ts has the same directory, git, session and usage-text
    code as the one in src/lib/segment-renderer.ts. That code is modelled once, in `SegmentRenderer`.
  - `SegmentsRenderer` models what differs: a tmux and context segment that is never null, and the
    metrics segment.

Shared text machinery is in `text.dfy`:
- decimal printing, and `Number.prototype.toFixed` on exact rationals;
- `Math.round`, `split`, `join`, `replace` and `includes`;
- `toLowerCase` on ASCII.

`wrappers.dfy` holds `Option`.

Numbers are exact: costs and rates are `real`, and token counts are `nat`. Each place where JavaScript
truthiness (`|| 0`, `|| {}`, `|| 80`) decides a branch is written out.

## Model

| member | source | states |
|---|---|---|
| Pricing.Lookup | src/segments/pricing.ts:265-267 | `allPricing[modelId]` finds a row stored under exactly that key, and None means no key equals it |
| Pricing.CaseInsensitiveMatch | src/segments/pricing.ts:276-280 | the result is a row whose lower-cased key equals the lower-cased identifier; None means no key matches up to case |
| Pricing.PatternMatch | src/segments/pricing.ts:281-299 | a hit is the row of the fallback key of some pattern entry one of whose fragments occurs in the identifier; None means every matching entry's fallback key is missing |
| Pricing.FuzzyMatchModel | src/segments/pricing.ts:273-309 | the method's scans with early returns compute the staged matcher: case-insensitive key, patterns in order, default key, synthesised "(Unknown Model)" row |
| Pricing.AnyFragment | src/segments/pricing.ts:294 | `pattern.some(p => lowerId.includes(p))`: true iff some fragment occurs in the identifier |
| Pricing.ScanPatterns | src/segments/pricing.ts:293-299 | the loop returns the first pattern entry (in order) that matches and whose fallback key is in the table |
| Pricing.SkipUnmatchedRows | src/segments/pricing.ts:293-299 | pattern entries none of whose fragments occur do not affect the result |
| Pricing.PatternHitIsTableRow | src/segments/pricing.ts:295-296 | a pattern hit is always a row of the price table |
| Pricing.CaseInsensitiveFirst | src/segments/pricing.ts:276-280 | the first key equal up to case, in table order, is the one returned |
| Pricing.ExactKeyWins | src/segments/pricing.ts:262-270 | an identifier that is a key resolves to that key's row, whatever the patterns say |
| Pricing.CaseInsensitiveBeforePatterns | src/segments/pricing.ts:273-280 | without an exact key, a key equal up to case wins over every pattern |
| Pricing.Opus41BeforeOpus4 | src/segments/pricing.ts:281-299 | an identifier with no exact or case-insensitive key that contains "opus-4-1" gets the Opus 4.1 row when the table has it |
| Pricing.GenericOpusIsOpus4 | src/segments/pricing.ts:281-299 | an identifier with no exact or case-insensitive key that matches none of the first seven patterns but contains "opus" gets the Opus 4 row |
| Pricing.ResolutionIsTableRowOrUnknown | src/segments/pricing.ts:262-309 | the resolved row is a table row or the synthesised unknown-model row; with the default key present it is always a table row |
| Pricing.ExtractModelId | src/segments/pricing.ts:332-352 | never empty; a truthy string `model` wins; with no model field at all the default identifier is used |
| Pricing.OfflineRatesNonNegative | src/segments/pricing.ts:12-141 | every rate of the offline table is non-negative, and every row carries the 5-minute cache-write rate |
| Pricing.PerMillionNonNegative | src/segments/pricing.ts:324-327 | a non-negative rate gives a non-negative charge per token count |
| Pricing.CostForEntry | src/segments/pricing.ts:311-330 | an entry without usage costs 0; the cost is NaN (None) exactly when the entry has usage and its row lacks `cache_write_5m`, whatever the counts |
| Pricing.CostNonNegative | src/segments/pricing.ts:311-330 | with non-negative rates every cost that is a number is at least 0 |
| Pricing.PricedTableHasCost | src/segments/pricing.ts:311-330 | from a table whose every row carries `cache_write_5m`, every entry's cost is a number |
| Pricing.AbsentCountsCostNothing | src/segments/pricing.ts:319-322 | an absent token count is priced exactly as an explicit 0 |
| Pricing.WithoutMeta | src/segments/pricing.ts:216-221 | the fetched document minus its `_meta` key: no `_meta` key is left, every other key and value is kept, and nothing is added |
| Pricing.StripMeta | src/segments/pricing.ts:216-221 | the copy loop computes exactly `WithoutMeta` |
| Pricing.ValidatePricingData | src/segments/pricing.ts:245-260 | as written: true iff every value is an object with numeric input, output and cache_read |
| Pricing.ValidatorAdmitsUnpricedRow | src/segments/pricing.ts:245-260 | a row without cache_write_5m passes the validator as written although the cost formula reads that rate |
| Pricing.ValidatePricedDocument | src/segments/pricing.ts:245-260 | corrected validator: true iff every value carries every rate the cost formula reads |
| Pricing.ToPricingTable | src/segments/pricing.ts:223-228 | a document that passes `validatePricingData` read as a table keeps its keys in order and each row's rates, `cache_write_5m` present exactly when the document has it |
| Pricing.UsableDisk | src/segments/pricing.ts:161-173 | a cache file whose timestamp is 0 (falsy) reads as no cache |
| Pricing.FreshMemoryShortCircuits | src/segments/pricing.ts:189-193 | a memory entry younger than the 24-hour TTL is returned unchanged, and disk and network are not consulted |
| Pricing.FreshDiskPromoted | src/segments/pricing.ts:195-200 | a fresh cache file is promoted into memory and returned, and the network is not consulted |
| Pricing.NetworkDataAccepted | src/segments/pricing.ts:202-229 | a fetched document becomes the table exactly when, without `_meta`, every value passes `validatePricingData`; its rows keep their keys and their `cache_write_5m` or its absence; it is kept in memory stamped `now`, and in the cache file when that write succeeds |
| Pricing.FallbackAfterFailedFetch | src/segments/pricing.ts:231-242 | when the fetch fails or does not pass `validatePricingData`, a cache file of any age is used, else the offline table |
| Pricing.ResolutionIsStable | src/segments/pricing.ts:186-243 | resolving again from the caches the first resolution left, with the same fetch outcome, gives the same table |
| Pricing.PricingService.GetCurrentPricing | src/segments/pricing.ts:186-243 | the method, which validates with `validatePricingData`, returns the tier the resolution picks and leaves the memory and disk caches as that resolution says |
| Pricing.PricingService.GetModelPricing | src/segments/pricing.ts:262-270 | resolves the table as the program does, then the identifier's row in it, which may lack `cache_write_5m` when the table came from the network |
| Pricing.UnpricedDocumentCostsNaN | src/segments/pricing.ts:202-229 | with no usable cache, a fetched row without `cache_write_5m` becomes the network table in memory and on disk, and every entry with usage priced from it costs NaN; the corrected resolution falls back to the offline table |
| Pricing.PricedNetworkDataAccepted | src/segments/pricing.ts:245-260 | corrected resolution: a fetched document is accepted exactly when every value carries every priced rate, otherwise the stale cache file or the offline table is used |
| Pricing.PricedResolutionIsPriced | src/segments/pricing.ts:245-260 | corrected resolution: from priced caches it yields a priced table and leaves only priced tables in the caches |
| Pricing.ResolutionsAgreeOnPricedDocuments | src/segments/pricing.ts:245-260 | the program's and the corrected resolution differ only on a fetched document that passes `validatePricingData` and has a row without `cache_write_5m` |
| Session.UsageEntriesCollects | src/segments/session.ts:63-93 | one entry per line that parsed and has usage, in file order, each built from that line's record; unparseable lines and records without usage give nothing |
| Session.GetSessionUsage | src/segments/session.ts:43-102 | the loop builds the entries in file order; the total cost is the sum of the entries' costs; an empty file gives zero cost and no entries |
| Session.UsageEntriesAppend | src/segments/session.ts:63-93 | entries are collected line by line, so they distribute over concatenated transcripts |
| Session.SumCostsAppend | src/segments/session.ts:77-84 | costs add up over concatenated entries |
| Session.ReplayCountsTwice | src/segments/session.ts:63-93 | there is no deduplication: a transcript read twice counts every entry and its cost twice |
| Session.CostPrecedence | src/segments/session.ts:77-84 | a recorded `costUSD` is taken verbatim, otherwise the entry's cost is the computed cost of its usage |
| Session.BreakdownTotal | src/segments/session.ts:104-114 | the breakdown's total is the sum of every entry's four counts |
| Session.BreakdownAppend | src/segments/session.ts:104-114 | the breakdown of two runs of entries is the component-wise sum of their breakdowns |
| Session.BreakdownExample | test/core.test.ts:70-103 | two entries with 1000/500/100/- and 1500/750/-/200 give 2500, 1250, 100 and 200 |
| Session.SessionInfoSums | src/segments/session.ts:116-132 | when present, the session cost is the sum of the entries' costs and the token count is the sum of their counts |
| Session.GetSessionInfo | src/segments/session.ts:116-132 | null cost, tokens and breakdown without usage or entries, otherwise the totals |
| Session.GetUsageInfo | src/segments/session.ts:138-153 | wraps the session info |
| Metrics.MainChain | src/segments/metrics.ts:32-73 | only parsed, non-sidechain records are kept, and only records of the file |
| Metrics.MainChainAppend | src/segments/metrics.ts:32-73 | filtering distributes over concatenation, so file order survives |
| Metrics.MainChainKeepsParsed | src/segments/metrics.ts:32-73 | every parsed main-chain record of the file is kept |
| Metrics.LoadTranscriptEntries | src/segments/metrics.ts:32-73 | no transcript gives no entries; otherwise the main chain in file order |
| Metrics.RoleOf | src/segments/metrics.ts:85-103 | user iff the kind is "user" or "human"; unclassified iff the kind is unknown and there is no usage |
| Metrics.TimesOfCollects | src/segments/metrics.ts:79-107 | the collected times are the timestamps of exactly the timestamped records of the role, one per record, in file order |
| Metrics.LatestBefore | src/segments/metrics.ts:116-123 | the latest user time strictly before the assistant time, or None when every user time is later or equal |
| Metrics.LatestUserBefore | src/segments/metrics.ts:116-123 | the loop over the user times computes `LatestBefore` |
| Metrics.CalculateResponseTimes | src/segments/metrics.ts:75-151 | the method's pairing and averaging loops compute the mean of the kept gaps |
| Metrics.ResponseTimeFor | src/segments/metrics.ts:115-135 | the gap for one assistant time is kept only strictly inside 0.1 s and 300 s |
| Metrics.SumOf | src/segments/metrics.ts:142-143 | the `reduce` computes the sum |
| Metrics.GapsInBand | src/segments/metrics.ts:127-128 | every kept gap lies strictly between 0.1 and 300 seconds |
| Metrics.ResponseTimeInBand | src/segments/metrics.ts:75-151 | the mean response time, when there is one, lies strictly inside (0.1 s, 300 s) |
| Metrics.NoUsersNoResponseTime | src/segments/metrics.ts:109-111 | a transcript without user messages has no response time |
| Metrics.TimestampsMembers | src/segments/metrics.ts:156-164 | the collected timestamps are exactly those of the records |
| Metrics.MinIsLeast | src/segments/metrics.ts:170-173 | the earliest time is an element and no element is earlier |
| Metrics.MaxIsGreatest | src/segments/metrics.ts:170-173 | the latest time is an element and no element is later |
| Metrics.SessionDuration | src/segments/metrics.ts:153-182 | a duration is positive and is the span between two timestamps of the transcript; fewer than two timestamps give none |
| Metrics.RecentMembers | src/segments/metrics.ts:188-193 | the recent timestamps are those within the two-hour window, and only they |
| Metrics.BurnRateDurationBounds | src/segments/metrics.ts:184-206 | the burn-rate duration is at least 1800 s and, above that floor, measured from a timestamp inside the window |
| Metrics.MessageCount | src/segments/metrics.ts:208-214 | the number of records whose kind is user or human |
| Metrics.MessageCountAppend | src/segments/metrics.ts:208-214 | message counts add up over concatenated transcripts |
| Metrics.Dedup | src/segments/metrics.ts:222-229 | at most as many records as the input |
| Metrics.DedupSnoc | src/segments/metrics.ts:223-229 | the next record is kept iff its key has not been seen |
| Metrics.DedupDistinctKeys | src/segments/metrics.ts:222-236 | deduplication keeps only input records, and never two with the same key |
| Metrics.DedupKeepsEveryKey | src/segments/metrics.ts:222-236 | every key of the input is the key of some kept record |
| Metrics.DedupReplay | src/segments/metrics.ts:222-236 | replaying the whole transcript changes nothing |
| Metrics.RoundTo4 | src/segments/metrics.ts:239 | rounding to four decimals moves the total by at most 0.00005 |
| Metrics.TotalCostReplay | src/segments/metrics.ts:216-240 | duplicating every record leaves the total cost unchanged |
| Metrics.CalculateTotalCost | src/segments/metrics.ts:216-240 | the loop with its `processedEntries` set computes the deduplicated total |
| Metrics.AddEntryCost | src/segments/metrics.ts:231-236 | one step adds the record's own `costUSD`, or else its computed cost |
| Metrics.WithUsageSnoc | src/segments/metrics.ts:246-247 | a record is counted only when it carries usage |
| Metrics.TotalTokensReplay | src/segments/metrics.ts:242-265 | replaying a transcript twice does not double its token total |
| Metrics.CalculateTotalTokens | src/segments/metrics.ts:242-265 | the loop computes the deduplicated sum of the four counts |
| Metrics.CalculateBurnRates | src/segments/metrics.ts:290-314 | both burn rates over the burn-rate duration, when the duration exceeds a minute |
| Metrics.RatesOver | src/segments/metrics.ts:297-312 | each total divided by the hours elapsed and rounded, present only when the total is positive |
| Metrics.MetricsNullConvention | src/segments/metrics.ts:267-337 | no records gives five Nones; otherwise the message count is present, and each burn rate is present only when its total is positive |
| Metrics.GetMetricsInfo | src/segments/metrics.ts:267-337 | the metrics of the loaded main chain, or of no entries when there is no transcript |
| Context.ScanState | src/lib/context-provider.ts:63-84 | the chosen record qualifies (input tokens, main chain, timestamp) and its time is the positive maximum so far; with none chosen the time is 0 |
| Context.MostRecentIsLatest | src/lib/context-provider.ts:63-84 | no qualifying record is later than the chosen one |
| Context.MostRecentIsFirstOfItsTime | src/lib/context-provider.ts:78-81 | the chosen record is a line of the file, and every qualifying line before it is strictly earlier: on equal times the earlier line is kept |
| Context.ContextLength | src/lib/context-provider.ts:86-91 | all four counts but the output tokens, so at least the input tokens; output tokens are not in the window |
| Context.ClampedPercent | src/lib/context-provider.ts:99-108 | the clamped rounded percentage lies in 0..100 |
| Context.CalculateContextTokens | src/lib/context-provider.ts:44-120 | the scan over the lines computes the estimate for the most recent qualifying record, or None |
| Context.PercentagesExact | src/lib/context-provider.ts:93-119 | with the 200000 window the percentages are `(n+1000)/2000` and `(n+800)/1600` capped at 100, the usable limit is 160000, and the rest is the complement |
| Context.RoundOfWindowPercent | src/lib/context-provider.ts:99-102 | the rounded share of the 200000-token window in integer arithmetic |
| Context.RoundOfUsablePercent | src/lib/context-provider.ts:104-108 | the rounded share of the 160000 usable tokens in integer arithmetic |
| Context.Example43000 | test/context-provider.test.ts:21-43 | 35000 + 8000 gives 43000 tokens, 22%, 27% usable and 73% left |
| Context.Example150000 | test/context-provider.test.ts:46-74 | 150000 tokens give 75%, 94% usable and 6% left for every model |
| Context.SameLimitForEveryModel | src/lib/context-provider.ts:40-42 | the estimate does not depend on which model, if any, is named |
| Budget.CalculateBudgetPercentage | src/utils/budget.ts:7-13 | None iff the budget is missing or not positive or the cost is negative; otherwise in 0..100, and 100 iff the cost reaches the budget |
| Budget.GetBudgetStatus | src/utils/budget.ts:15-47 | the percentage is the calculated one; without one no warning and no text; a warning iff the percentage reaches the threshold |
| Budget.DisplayTextBands | src/utils/budget.ts:30-40 | the text is empty iff there is no percentage; otherwise it ends in "%", starts with " !" iff warning, with " +" iff not warning and at least 50, and is otherwise a plain number |
| Budget.UnsignedDigits | src/utils/budget.ts:30 | the printed percentage starts with a digit and holds only digits and '.' |
| Formatters.FormatCostBands | src/utils/formatters.ts:8-12 | "<$0.01" exactly below a cent, and "$0.00" for a missing cost |
| Formatters.FormatCostReadsBack | src/utils/formatters.ts:11 | otherwise "$", digits, ".", two digits |
| Formatters.CentsValue | src/utils/formatters.ts:11 | the printed dollars and cents read back as the cost rounded to cents |
| Formatters.FormatTokens | src/utils/formatters.ts:14-23 | every branch ends in " tokens" after an amount without spaces |
| Formatters.FormatTokensOfNumber | src/utils/formatters.ts:14-23 | `formatTokens` of a positive number that need not be whole ends in " tokens" |
| Formatters.FormatTokensOfWholeNumber | src/utils/formatters.ts:14-23 | on a whole positive number it is `formatTokens` of that count |
| Formatters.NullTokensAreZero | src/utils/formatters.ts:15-16 | null reads as "0 tokens", as 0 does |
| Formatters.SmallCountsExact | src/utils/formatters.ts:22 | below a thousand the count is printed in full |
| Formatters.ThousandsUnit | src/utils/formatters.ts:19-20 | from 1000 to below a million the amount is one-decimal thousands followed by "K", reading back as the count rounded |
| Formatters.MillionsUnit | src/utils/formatters.ts:17-18 | from a million the amount is one-decimal millions followed by "M", reading back as the count rounded |
| Formatters.StripTokens | src/utils/formatters.ts:31 | `formatTokens(n).replace(" tokens", "")` is exactly the amount |
| Formatters.FormatTokenBreakdown | src/utils/formatters.ts:25-44 | the pushes compute the joined parts, or "0 tokens" without a breakdown or parts |
| Formatters.NoPartsIffNoTokens | src/utils/formatters.ts:30-41 | there are no parts exactly when the four counts sum to zero |
| Formatters.ZeroTextIffNoTokens | src/utils/formatters.ts:25-44 | the text is "0 tokens" exactly when there is no breakdown or its total is zero |
| Formatters.BreakdownExample | src/utils/formatters.ts:25-44 | 2500 in, 1250 out, 100 + 200 cached give "2.5Kin", "1.3Kout", "300cached" |
| Colors.Slice | src/lib/colors.ts:2-4 | `slice` clamps to the length and is the subsequence when in range |
| Colors.ParseTwoHexDigits | src/lib/colors.ts:2-4 | two hexadecimal digits parse to their value, from 0 to 255 |
| Colors.ParseToHex2 | src/lib/colors.ts:2-4 | a channel written with two hex digits parses back to itself |
| Colors.WellFormedChannels | src/lib/colors.ts:1-6 | a well-formed "#rrggbb" gives three channels from 0 to 255, each the value of its two digits |
| Colors.HexToAnsiOfChannels | src/lib/colors.ts:1-6 | a colour written from three channel values becomes an escape with exactly those values, 48 or 38 by the flag |
| Colors.MatchAtSound | src/lib/colors.ts:9 | a regular-expression match is the pattern's text with three non-empty digit groups |
| Colors.NoMatchBefore | src/lib/colors.ts:9 | ESC and '[' at positions 0 and 1 start no match |
| Colors.ExtractOfBackground | src/lib/colors.ts:8-14 | round trip: the background escape of any colour becomes that colour's foreground escape |
| Colors.ExtractOfEscape | src/lib/colors.ts:8-14 | for any printed channels, numeric or "NaN", the background escape becomes the foreground one |
| Colors.BackgroundMatches | src/lib/colors.ts:9-12 | with numeric channels the match is at the prefix and its groups are the channels |
| Colors.BackgroundFallsBack | src/lib/colors.ts:9-10 | with a printed channel that is not all digits (such as "NaN") the regular expression matches nowhere |
| Colors.FirstFortyEight | src/lib/colors.ts:13 | the first "48" of `ESC [48...` is at position 2, so the replace turns it into 38 |
| ConfigLoader.GetFindsKeys | src/config/loader.ts:13-14 | a property reads as present exactly when some member has the key |
| ConfigLoader.Put | src/config/loader.ts:22-34 | after `obj[key] = value` the key reads as that value |
| ConfigLoader.PutKeys | src/config/loader.ts:22-34 | an existing key keeps its place, and a new key goes last |
| ConfigLoader.PutKeepsUnique | src/config/loader.ts:22-34 | assignment never duplicates a key |
| ConfigLoader.Delete | src/config/loader.ts:250 | after `delete` the key reads as undefined |
| ConfigLoader.DeepMerge | src/config/loader.ts:7-40 | the method's loop over the source's keys computes the merge of the target's members with the source's |
| ConfigLoader.MergeAppend | src/config/loader.ts:13-37 | merging a concatenation is merging its parts in turn |
| ConfigLoader.MergeKeepsUnmentioned | src/config/loader.ts:11-13 | a key the source does not mention keeps the target's value |
| ConfigLoader.MergeKeepsTargetKeys | src/config/loader.ts:11 | the target's keys keep their order, and keys new to the target come after them |
| ConfigLoader.MergeSkipsUndefined | src/config/loader.ts:15 | source members whose value is undefined take no part |
| ConfigLoader.MergeMember | src/config/loader.ts:16-35 | what each source member leaves under its key: a recursive merge into `target[key] \|\| {}` for an object; for an empty array, the target's value unless that is an empty array; otherwise the source's value |
| ConfigLoader.MergeByKey | src/config/loader.ts:13-37 | what a merge leaves under one key, read off the source's value under that key |
| ConfigLoader.ScanFloat | src/config/loader.ts:147 | `parseFloat`'s scan reads digits before and after the point, and None without a digit |
| ConfigLoader.ParseFloatOfNat | src/config/loader.ts:147 | round trip: the decimal text of a natural number parses back to it |
| ConfigLoader.ParseFloatOfWord | src/config/loader.ts:147-148 | text starting with a lower-case letter is NaN, so the flag is ignored |
| ConfigLoader.CheckedStyle | src/config/loader.ts:86-93 | a style other than "minimal" or "powerline" becomes "minimal" |
| ConfigLoader.WithThemeGet | src/config/loader.ts:117-123 | the theme flag sets only `theme`, and only to a non-empty value |
| ConfigLoader.WithStyleGet | src/config/loader.ts:125-141 | the style flag sets only `display`, to no lines and a checked style, and only when non-empty |
| ConfigLoader.WithUsageTypeGet | src/config/loader.ts:177-190 | the usage flag sets only `usageType`, and only to one of cost, tokens, both, breakdown |
| ConfigLoader.BudgetAmount | src/config/loader.ts:143-148 | a budget flag's amount is accepted only as a positive number |
| ConfigLoader.WithBudgetGet | src/config/loader.ts:149-155 | the budget entry is spread from the existing budget object, with the defaults and the amount |
| ConfigLoader.CliTheme | src/config/loader.ts:117-123 | the command line sets a theme only when `--theme=` carries one |
| ConfigLoader.CliStyle | src/config/loader.ts:125-141 | the command line sets a display, with no lines and a known style, only when `--style=` carries a value |
| ConfigLoader.CliUsage | src/config/loader.ts:177-190 | the command line sets a usage type only when `--usage=` names one of the four |
| ConfigLoader.CliBudget | src/config/loader.ts:143-175 | a budget is set only when a budget flag is a positive number; each entry is present only for its own flag, with that amount and threshold 80 |
| ConfigLoader.EnvOverridesShape | src/config/loader.ts:71-108 | the environment's overrides hold each key once, a display only with a known style, and the theme when the variable is non-empty |
| ConfigLoader.CliOverridesShape | src/config/loader.ts:114-193 | the command line's overrides hold each key once, and a display only with a known style |
| ConfigLoader.FixStyleChecks | src/config/loader.ts:217-226 | the style check checks every style, leaves a checked one alone, and touches nothing but the display |
| ConfigLoader.PropagateUsageType | src/config/loader.ts:235-251 | the method computes the `usageType` step, including the cases where the source throws |
| ConfigLoader.PropagateLines | src/config/loader.ts:236-249 | the `forEach` rewrites each line, and the first unreadable line stops the step |
| ConfigLoader.PropagatedKeeps | src/config/loader.ts:235-251 | the step removes a truthy `usageType`, leaves a configuration without one unchanged, and changes no other key nor the display's style |
| ConfigLoader.PropagatedLineTypes | src/config/loader.ts:237-248 | session and today get the type, block gets "cost" for "both" and "breakdown", and other segments are unchanged |
| ConfigLoader.PropagatedLinesEach | src/config/loader.ts:236-249 | the step succeeds exactly when every line can be read, and then treats each line on its own |
| ConfigLoader.LoadConfig | src/config/loader.ts:195-254 | the method applies defaults, file, style check, environment, command line and the `usageType` step in that order |
| ConfigLoader.LoadConfigFromCLI | src/config/loader.ts:256-269 | loading with the command line's parsed overrides |
| ConfigLoader.LoadedStyleChecked | src/config/loader.ts:195-254 | whatever the file, environment and flags say, the loaded display style is known, absent or falsy |
| ConfigLoader.LoadedTheme | src/config/loader.ts:195-254 | the theme comes from the command line if it names one, else the environment, else the file, else "dark" |
| ConfigLoader.DefaultConfigFacts | src/config/defaults.ts:3-61 | the defaults' theme, display and budget |
| ConfigLoader.CliOnlyBudget | src/config/loader.ts:143-175 | with only defaults and flags, today's budget is the daily flag's amount or 50, and the session's is the session flag's amount or none |
| ConfigLoader.CliOnlyPropagatedLines | src/config/loader.ts:235-251 | on the defaults the `usageType` step succeeds, and sets the flag's type on the default line's segments or leaves that line alone |
| ConfigLoader.DefaultLinesTakeUsage | src/config/loader.ts:235-251 | a configuration showing the default lines passes the step: a truthy usage type reaches those segments |
| SegmentRenderer.DirectoryNameSlashIffNested | src/lib/segment-renderer.ts:224-240 | the name is never empty, and holds a '/' exactly when the directory is shown under a different project |
| SegmentRenderer.DirectoryNameEndsWithOwnName | src/lib/segment-renderer.ts:224-240 | the last component shown is the current directory's own name, or "root" |
| SegmentRenderer.DirectoryNameIsSuffix | src/lib/segment-renderer.ts:228-239 | outside a project the name is the text after the last '/', which ends the directory, or "root" when that text is empty |
| SegmentRenderer.RenderDirectory | src/lib/segment-renderer.ts:74-87 | the theme's colours and a non-empty text |
| SegmentRenderer.NoDirectoryIsRoot | src/lib/segment-renderer.ts:78-80 | without any directory the segment shows "root" |
| SegmentRenderer.RenderGit | src/lib/segment-renderer.ts:89-122 | null iff there is no git information; otherwise the text built step by step in the theme's colours |
| SegmentRenderer.StatusIconPriority | src/lib/segment-renderer.ts:96-103 | the text starts with branch symbol, branch and icon; conflicts, dirty and clean each get their own symbol |
| SegmentRenderer.ShaNeedsShowSha | src/lib/segment-renderer.ts:105-107 | without `showSha` the sha makes no difference |
| SegmentRenderer.AheadBehindCounts | src/lib/segment-renderer.ts:109-115 | the counts suffix is empty iff both counts are 0, ends with the behind count when behind, else with the ahead count, and its digits read back |
| SegmentRenderer.UnknownTypeIsCost | src/lib/segment-renderer.ts:242-260 | an unknown usage type is shown as cost |
| SegmentRenderer.BothShowsCostThenTokens | src/lib/segment-renderer.ts:253-254 | "both" shows the cost, then the token count in parentheses |
| SegmentRenderer.BudgetSuffixIff | src/lib/segment-renderer.ts:262-283 | the usage text comes first; something follows exactly when the budget is positive and the cost non-negative, and that is the budget marker |
| SegmentRenderer.ThresholdOr80 | src/lib/segment-renderer.ts:146 | a missing or zero threshold becomes 80 |
| SegmentRenderer.RenderSession | src/lib/segment-renderer.ts:134-154 | the session symbol and a space, then the session's budgeted usage text |
| SegmentRenderer.RenderToday | src/lib/segment-renderer.ts:156-176 | "Today ", then the day's budgeted usage text |
| SegmentRenderer.NoSessionBudgetNoMarker | src/lib/segment-renderer.ts:139-147 | without a session budget entry, the usage text alone |
| SegmentRenderer.FormatSessionBlockInfo | src/lib/segment-renderer.ts:285-316 | the method's appends compute the block text, a fractional token burn rate included |
| SegmentRenderer.BlockTextShape | src/lib/segment-renderer.ts:285-316 | an inactive block says "No active block"; an active one starts with its amount and ends in "/hr" exactly when it shows a burn rate, else in " left)" |
| SegmentRenderer.RenderBlock | src/lib/segment-renderer.ts:178-192 | null iff there is no block; otherwise the block symbol, a space and the block text |
| SegmentRenderer.RenderTmux | src/lib/segment-renderer.ts:194-205 | null iff there is no session id or it is empty; otherwise "tmux:" and the id |
| SegmentRenderer.ContextTextParts | src/lib/segment-renderer.ts:213-218 | the mark, the token count grouped by thousands in digits and commas, then the percentage left |
| SegmentRenderer.RenderContext | src/lib/segment-renderer.ts:207-222 | null iff there is no context information; otherwise the context text |
| SegmentsRenderer.RenderTmux | src/segments/renderer.ts:162-179 | never null: the shared tmux text, or "tmux:none" without an id |
| SegmentsRenderer.TmuxPlaceholderIsAmbiguous | src/segments/renderer.ts:162-179 | the placeholder cannot be told apart from a session named "none" |
| SegmentsRenderer.RenderContext | src/segments/renderer.ts:181-202 | never null: with context information, the shared context text with the theme's symbol |
| SegmentsRenderer.NullContextIsEmptyWindow | src/segments/renderer.ts:185-191 | missing information shows as a window with no tokens and all of it left |
| SegmentsRenderer.TokensOfInt | src/segments/renderer.ts:255-257 | the text ends in " tokens", and is `formatTokens` for a non-negative count |
| SegmentsRenderer.RenderMetrics | src/segments/renderer.ts:204-273 | the method's pushes compute "new" without metrics, "active" without parts, else the parts joined by spaces |
| SegmentsRenderer.PartsCount | src/segments/renderer.ts:219-258 | one part per metric present and selected: the first three unless switched off, the burn rates only when switched on |
| SegmentsRenderer.ActiveIffNothingSelected | src/segments/renderer.ts:260-266 | "active" exactly when no metric is both present and selected |
| SegmentsRenderer.DefaultConfigHidesBurnRates | src/segments/renderer.ts:219-258 | without a config the burn rates are hidden, and a message count always gives a part |
| SegmentsRenderer.LoadedMetricsAreNeverActiveOnly | src/segments/renderer.ts:204-273 | metrics of a non-empty transcript always show at least their message count |
| SegmentsRenderer.ResponseTimeUnit | src/segments/renderer.ts:223-226 | seconds below a minute, minutes otherwise |
| SegmentsRenderer.DurationUnit | src/segments/renderer.ts:275-285 | the unit is s below 60, m below 3600, h below 86400, else d |
| SegmentsRenderer.DurationReadsBack | src/segments/renderer.ts:276-279 | below an hour the digits read back as the rounded count of the unit |
| SegmentsRenderer.CostBurnUnit | src/segments/renderer.ts:247-251 | cents per hour exactly below a dollar, dollars otherwise |
| Text.NatToStringRoundTrip | src/utils/formatters.ts:22 | the decimal text of a count is digits reading back as the count |
| Text.ToFixedReadsBack | src/utils/formatters.ts:11 | `toFixed(d)` of a non-negative amount reads back as the amount rounded to d decimals |

## Left out

- File and network I/O are parameters:
  - transcript reading, the pricing fetch and the cache file are `Option` values;
  - failures are `None`;
  - the clock is an integer `now`, in milliseconds;
  - the JSON parse of each line is a parsed record or `None`.
- Timestamps are integers, already parsed from their ISO text.
- Floating-point arithmetic is not modelled:
  - numbers are exact rationals;
  - `toFixed` rounds exact ties up;
  - NaN and infinities are not modelled, with two exceptions, both written as `None`: `parseFloat`'s NaN, and the NaN
    cost of an entry priced from a row without `cache_write_5m` (`Pricing.CostForEntry`).
- `async` wrappers, logging, `console.warn` and the `debug` logger are not modelled.
- Colour tables and themes are a `Palette` pair per segment. The theme files and `DEFAULT_CONFIG.colors` are not modelled.
- `renderModel` is not modelled, in either renderer. It only reads a display name from the hook data.
- The daily usage in `renderToday` and the active block in `renderBlock` are taken as parameters:
  - the daily usage is a `SessionInfo`;
  - the active block is a `SessionBlockInfo`.
  - Their producer, src/lib/usage-provider.ts, is not part of this model.
- src/lib/formatters.ts, which src/lib/segment-renderer.ts imports, is not part of this model.
  - `SegmentRenderer` formats costs and token counts with `Formatters`, which models src/utils/formatters.ts, in its place.
  - `formatTimeRemaining` is a parameter `timeText` of the block text.
- src/lib/budget.ts is not part of this model. `SegmentRenderer` assumes it is the same code as src/utils/budget.ts, which `Budget` models.
- SegmentsRenderer.RenderMetrics: returns a segment rather than `SegmentData | null`, because the source never returns null.
- `findConfigFile`, `loadConfigFile` and `getConfigPath` are not modelled. They only look up and read files. The model takes the file's contents as `Option<Json>` instead.
- The warnings printed for invalid styles are not modelled.
- Config values are not cloned by `JSON.parse(JSON.stringify(...))`. The model already treats them as values.
- Pricing.PricingService.GetCurrentPricing: the disk cache is a field, and a write that fails is a `writable` flag.
  The memory entry and the cache file share one clock reading `now`; the source stamps the file with a second `Date.now()` at the write (src/segments/pricing.ts:178).
- Pricing.ToPricingTable: a fetched `cache_write_5m` that is not a number is read as absent. JavaScript would coerce a numeric string or `null` in the multiplication.
- Session.GetSessionUsage, Session.SessionInfoSums, Metrics.CalculateTotalCost, Metrics.GetMetricsInfo: these take a `PricedTable`, whose every row carries `cache_write_5m`.
  - The offline table is one (Pricing.OfflineRatesNonNegative), and so is every table the corrected resolution yields (Pricing.PricedResolutionIsPriced).
  - The NaN sums the source computes from a network table without that rate are not modelled. Pricing.UnpricedDocumentCostsNaN shows that such a table arises and that each entry priced from it costs NaN.
- SegmentRenderer.FormatSessionBlockInfo, SegmentRenderer.RenderBlock: a fractional token burn rate below 1000 is printed by a parameter `numberText`.
  It stands for JavaScript's shortest decimal text of the double, which exact rationals do not model. Whole rates, and rates from 1000 up, are formatted as `formatTokens` does.
- ConfigLoader.ScanFloat, ConfigLoader.CliBudget: `parseFloat("Infinity")` is Infinity, which passes the positive-number check and becomes the budget (src/config/loader.ts:147-148).
  The model reads no digit in it, gives `None` and ignores the flag. An exponent too large for a double is not Infinity here either.
- ConfigLoader: a JSON object keeps its keys in insertion order. JavaScript lists integer-like keys first, in ascending order; no key of this configuration is integer-like.
- Pricing.ExtractModelId: an object `message.model` is modelled as an optional `id` string, whatever its other fields are.
- `toLowerCase` is modelled on ASCII letters only.

## Findings

| source | as written | input that shows it | evidently intended | confidence | as-written member | corrected member |
|---|---|---|---|---|---|---|
| src/segments/pricing.ts:245-260 | `validatePricingData` checks only input, output and cache_read. Yet `calculateCostForEntry` multiplies by `cache_write_5m` (line 327). | A fetched document `{"m": {input: 3, output: 15, cache_read: 0.3}}` with no usable cache is accepted, kept in memory and on disk. Every entry with usage priced from "m" then costs NaN, even with no cache-creation tokens, since `(0 / 1_000_000) * undefined` is NaN. | Accept only rows that carry every rate the cost formula reads, so that every cost is a number. | not executed | Pricing.ValidatePricingData, Pricing.ValidatorAdmitsUnpricedRow, Pricing.UnpricedDocumentCostsNaN | Pricing.ValidatePricedDocument, Pricing.PricedResolutionIsPriced, Pricing.PricedTableHasCost |
