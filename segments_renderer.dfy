/** The second segment renderer (src/segments/renderer.ts). Its directory, git, session and usage text
    is the same as SegmentRenderer's and is not repeated here; what differs is that tmux and context
    segments fall back to a placeholder instead of being left out, and that it renders the metrics
    segment. */
module SegmentsRenderer {
  import opened Wrappers
  import opened Text
  import opened Formatters
  import opened Context
  import opened Metrics
  import opened Transcript
  import opened Pricing
  import R = SegmentRenderer

  /** The theme's symbols this renderer writes beyond the shared ones. */
  datatype Symbols = Symbols(
    contextTime: string,
    metricsResponse: string,
    metricsDuration: string,
    metricsMessages: string,
    metricsBurn: string)

  // ---------------------------------------------------------------- tmux and context

  /** `renderTmux`: never null; without a session id (the empty one included) the text is "tmux:none".
      Wherever the other renderer shows the segment, this one shows the same. */
  function RenderTmux(sessionId: Option<string>, palette: R.Palette): (r: R.SegmentData)
    ensures R.RenderTmux(sessionId, palette).Some? ==> r == R.RenderTmux(sessionId, palette).value
    ensures R.RenderTmux(sessionId, palette).None? ==> r == R.Paint("tmux:none", palette)
  {
    if sessionId.None? || sessionId.value == "" then R.Paint("tmux:none", palette)
    else R.Paint("tmux:" + sessionId.value, palette)
  }

  /** The placeholder cannot be told apart from a session that is named "none". */
  lemma TmuxPlaceholderIsAmbiguous(palette: R.Palette)
    ensures RenderTmux(None, palette) == RenderTmux(Some("none"), palette) == RenderTmux(Some(""), palette)
  {
  }

  /** `renderContext`: never null; without context information the text is "0 (100%)" after the symbol. */
  function RenderContext(symbols: Symbols, contextInfo: Option<ContextInfo>, palette: R.Palette): (r: R.SegmentData)
    ensures contextInfo.Some? ==> r.text == R.ContextText(symbols.contextTime, contextInfo.value)
  {
    if contextInfo.None? then R.Paint(symbols.contextTime + " 0 (100%)", palette)
    else R.Paint(R.ContextText(symbols.contextTime, contextInfo.value), palette)
  }

  /** Missing context information shows as a window with no tokens in it and all of it left. */
  lemma NullContextIsEmptyWindow(symbols: Symbols, palette: R.Palette, empty: ContextInfo)
    requires empty.inputTokens == 0 && empty.contextLeftPercentage == 100
    ensures RenderContext(symbols, None, palette) == RenderContext(symbols, Some(empty), palette)
  {
    assert GroupThousands(0) == "0";
    assert IntToString(100) == "100" by {
      assert NatToString(1) == "1" && NatToString(10) == "10";
    }
  }

  // ---------------------------------------------------------------- metrics

  /** The metrics segment's options; an absent flag is `undefined`. */
  datatype MetricsConfig = MetricsConfig(
    showResponseTime: Option<bool>,
    showDuration: Option<bool>,
    showMessageCount: Option<bool>,
    showCostBurnRate: Option<bool>,
    showTokenBurnRate: Option<bool>)

  /** `config?.flag` reads `undefined` for every flag when there is no config. */
  function FlagsOf(config: Option<MetricsConfig>): MetricsConfig {
    if config.None? then MetricsConfig(None, None, None, None, None) else config.value
  }

  /** `flag !== false`: shown unless explicitly switched off. */
  predicate NotOff(flag: Option<bool>) {
    flag != Some(false)
  }

  /** `flag` is truthy: shown only when switched on. */
  predicate On(flag: Option<bool>) {
    flag == Some(true)
  }

  /** The response time: seconds with one decimal below a minute, else minutes with one decimal. */
  function ResponseTimeText(seconds: real): string {
    if seconds < 60.0 then ToFixed(seconds, 1) + "s" else ToFixed(seconds / 60.0, 1) + "m"
  }

  /** `formatDuration`: whole seconds below a minute, whole minutes below an hour, hours with one
      decimal below a day, else days with one decimal. */
  function FormatDuration(seconds: real): string {
    if seconds < 60.0 then ToFixed(seconds, 0) + "s"
    else if seconds < 3600.0 then ToFixed(seconds / 60.0, 0) + "m"
    else if seconds < 86400.0 then ToFixed(seconds / 3600.0, 1) + "h"
    else ToFixed(seconds / 86400.0, 1) + "d"
  }

  /** The cost burn rate: cents per hour below a dollar, else dollars with two decimals per hour. */
  function CostBurnText(rate: real): string {
    if rate < 1.0 then ToFixed(rate * 100.0, 0) + "\U{00A2}/h" else "$" + ToFixed(rate, 2) + "/h"
  }

  /** `formatTokens` of any integer: a negative one falls through to `${n} tokens`. */
  function TokensOfInt(n: int): (r: string)
    ensures EndsWith(r, " tokens")
    ensures n >= 0 ==> r == FormatTokens(Some(n))
  {
    if n >= 0 then FormatTokens(Some(n))
    else
      EndsWithAppend(IntToString(n), " tokens");
      IntToString(n) + " tokens"
  }

  /** The parts `renderMetrics` pushes, in order: response time, duration, message count, cost burn
      rate, token burn rate; each needs its value and its flag. */
  function MetricParts(symbols: Symbols, m: MetricsInfo, config: Option<MetricsConfig>): seq<string> {
    var f := FlagsOf(config);
    var p3 := MessageParts(symbols, m, f);
    var p4 := if On(f.showCostBurnRate) && m.costBurnRate.Some? then p3 + [symbols.metricsBurn + " " + CostBurnText(m.costBurnRate.value)] else p3;
    if On(f.showTokenBurnRate) && m.tokenBurnRate.Some? then p4 + [symbols.metricsBurn + " " + TokensOfInt(m.tokenBurnRate.value) + "/h"] else p4
  }

  /** The parts pushed up to the message count. */
  function MessageParts(symbols: Symbols, m: MetricsInfo, f: MetricsConfig): seq<string> {
    var p1 := if NotOff(f.showResponseTime) && m.responseTime.Some? then [symbols.metricsResponse + " " + ResponseTimeText(m.responseTime.value)] else [];
    var p2 := if NotOff(f.showDuration) && m.sessionDuration.Some? then p1 + [symbols.metricsDuration + " " + FormatDuration(m.sessionDuration.value)] else p1;
    if NotOff(f.showMessageCount) && m.messageCount.Some? then p2 + [symbols.metricsMessages + " " + NatToString(m.messageCount.value)] else p2
  }

  /** The metrics text: "new" without metrics, "active" when no part is shown, else the parts. */
  function MetricsText(symbols: Symbols, metrics: Option<MetricsInfo>, config: Option<MetricsConfig>): string {
    if metrics.None? then symbols.metricsResponse + " new"
    else
      var parts := MetricParts(symbols, metrics.value, config);
      if parts == [] then symbols.metricsResponse + " active" else Join(parts, " ")
  }

  /** `renderMetrics`: the parts pushed one by one and joined with spaces. */
  method RenderMetrics(symbols: Symbols, metrics: Option<MetricsInfo>, palette: R.Palette, config: Option<MetricsConfig>) returns (r: R.SegmentData)
    ensures r == R.Paint(MetricsText(symbols, metrics, config), palette)
  {
    if metrics.None? {
      return R.Paint(symbols.metricsResponse + " new", palette);
    }
    var m := metrics.value;
    var f := FlagsOf(config);
    var parts: seq<string> := [];
    if f.showResponseTime != Some(false) && m.responseTime.Some? {
      parts := [symbols.metricsResponse + " " + ResponseTimeText(m.responseTime.value)];
    }
    if f.showDuration != Some(false) && m.sessionDuration.Some? {
      parts := parts + [symbols.metricsDuration + " " + FormatDuration(m.sessionDuration.value)];
    }
    if f.showMessageCount != Some(false) && m.messageCount.Some? {
      parts := parts + [symbols.metricsMessages + " " + NatToString(m.messageCount.value)];
    }
    assert parts == MessageParts(symbols, m, f);
    if f.showCostBurnRate == Some(true) && m.costBurnRate.Some? {
      parts := parts + [symbols.metricsBurn + " " + CostBurnText(m.costBurnRate.value)];
    }
    if f.showTokenBurnRate == Some(true) && m.tokenBurnRate.Some? {
      parts := parts + [symbols.metricsBurn + " " + TokensOfInt(m.tokenBurnRate.value) + "/h"];
    }
    assert parts == MetricParts(symbols, m, config);
    if |parts| == 0 {
      return R.Paint(symbols.metricsResponse + " active", palette);
    }
    return R.Paint(Join(parts, " "), palette);
  }

  function Indicator(b: bool): nat {
    if b then 1 else 0
  }

  /** One part per metric that has a value and is selected: the first three unless switched off, the
      burn rates only when switched on. */
  lemma PartsCount(symbols: Symbols, m: MetricsInfo, config: Option<MetricsConfig>)
    ensures var f := FlagsOf(config);
      |MetricParts(symbols, m, config)| ==
        Indicator(NotOff(f.showResponseTime) && m.responseTime.Some?)
        + Indicator(NotOff(f.showDuration) && m.sessionDuration.Some?)
        + Indicator(NotOff(f.showMessageCount) && m.messageCount.Some?)
        + Indicator(On(f.showCostBurnRate) && m.costBurnRate.Some?)
        + Indicator(On(f.showTokenBurnRate) && m.tokenBurnRate.Some?)
  {
  }

  /** "active" is shown exactly when no metric is both present and selected. */
  lemma ActiveIffNothingSelected(symbols: Symbols, m: MetricsInfo, config: Option<MetricsConfig>)
    ensures var f := FlagsOf(config);
      MetricParts(symbols, m, config) == [] <==>
        && !(NotOff(f.showResponseTime) && m.responseTime.Some?)
        && !(NotOff(f.showDuration) && m.sessionDuration.Some?)
        && !(NotOff(f.showMessageCount) && m.messageCount.Some?)
        && !(On(f.showCostBurnRate) && m.costBurnRate.Some?)
        && !(On(f.showTokenBurnRate) && m.tokenBurnRate.Some?)
  {
    PartsCount(symbols, m, config);
  }

  /** Without a config the burn rates are hidden, and a record with a message count always has a part. */
  lemma DefaultConfigHidesBurnRates(symbols: Symbols, m: MetricsInfo)
    ensures MetricParts(symbols, m, None) == MetricParts(symbols, m.(costBurnRate := None, tokenBurnRate := None), None)
    ensures |MetricParts(symbols, m, None)| <= 3
    ensures m.messageCount.Some? ==> MetricParts(symbols, m, None) != []
  {
    PartsCount(symbols, m, None);
  }

  /** Metrics computed from a non-empty transcript always show at least their message count by default. */
  lemma LoadedMetricsAreNeverActiveOnly(symbols: Symbols, entries: seq<Record>, now: int, table: PricedTable)
    requires entries != []
    ensures MetricParts(symbols, MetricsFor(entries, now, table), None) != []
  {
    DefaultConfigHidesBurnRates(symbols, MetricsFor(entries, now, table));
  }

  // ---------------------------------------------------------------- units

  /** A response time is shown in seconds exactly below a minute, in minutes otherwise. */
  lemma ResponseTimeUnit(seconds: real)
    ensures var r := ResponseTimeText(seconds);
      |r| >= 2 && (r[|r| - 1] == 's' <==> seconds < 60.0) && (r[|r| - 1] == 'm' <==> seconds >= 60.0)
  {
  }

  /** The unit of a duration is chosen by threshold: s below 60, m below 3600, h below 86400, else d. */
  lemma DurationUnit(seconds: real)
    ensures var r := FormatDuration(seconds); |r| >= 2
    ensures var r := FormatDuration(seconds);
      && (r[|r| - 1] == 's' <==> seconds < 60.0)
      && (r[|r| - 1] == 'm' <==> 60.0 <= seconds < 3600.0)
      && (r[|r| - 1] == 'h' <==> 3600.0 <= seconds < 86400.0)
      && (r[|r| - 1] == 'd' <==> seconds >= 86400.0)
  {
  }

  /** Below an hour a non-negative duration is a whole number of its unit, which reads back as the
      duration in that unit, rounded. */
  lemma DurationReadsBack(seconds: real)
    requires 0.0 <= seconds < 3600.0
    ensures var r := FormatDuration(seconds); var digits := r[..|r| - 1];
      && AllDigits(digits)
      && DigitsValue(digits) == if seconds < 60.0 then Round(seconds) else Round(seconds / 60.0)
  {
    var x := if seconds < 60.0 then seconds else seconds / 60.0;
    WholeReadsBack(x);
    var r := FormatDuration(seconds);
    assert r == ToFixed(x, 0) + [r[|r| - 1]];
    assert r[..|r| - 1] == ToFixed(x, 0);
  }

  /** `x.toFixed(0)` of a non-negative `x` is the digits of `x` rounded. */
  lemma WholeReadsBack(x: real)
    requires x >= 0.0
    ensures AllDigits(ToFixed(x, 0)) && DigitsValue(ToFixed(x, 0)) == Round(x)
  {
    var m := ToFixedOfNonNegative(x, 0);
    assert ToFixed(x, 0) == FixedDigits(m, 0) == NatToString(m);
    ScaledByOne(x);
    NatToStringRoundTrip(m);
  }

  /** A cost burn rate is shown in cents exactly below a dollar per hour, and in dollars otherwise. */
  lemma CostBurnUnit(rate: real)
    ensures var r := CostBurnText(rate);
      && (EndsWith(r, "\U{00A2}/h") <==> rate < 1.0)
      && (StartsWith(r, "$") <==> rate >= 1.0)
  {
    var r := CostBurnText(rate);
    if rate < 1.0 {
      var n := ToFixed(rate * 100.0, 0);
      EndsWithAppend(n, "\U{00A2}/h");
      assert r[0] == n[0];
    } else {
      assert r[|r| - 3] == ToFixed(rate, 2)[|ToFixed(rate, 2)| - 1];
      assert r[0] == '$';
    }
  }
}
