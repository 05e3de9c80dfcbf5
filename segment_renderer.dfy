/** The text of the status-line segments (src/lib/segment-renderer.ts): the directory name, the git
    summary, the usage text with its budget marker, the session-block text, and the null handling of
    the optional segments. A segment's colours are the pair its theme entry supplies. */
module SegmentRenderer {
  import opened Wrappers
  import opened Text
  import opened Session
  import opened Formatters
  import opened Budget
  import opened Context

  /** What a segment renders to: its text and the background and foreground colours. */
  datatype SegmentData = SegmentData(text: string, bgColor: string, fgColor: string)

  /** The background and foreground colours a theme gives one segment. */
  datatype Palette = Palette(bg: string, fg: string)

  /** The theme's symbols this renderer writes. */
  datatype Symbols = Symbols(
    branch: string,
    gitClean: string,
    gitDirty: string,
    gitConflicts: string,
    gitAhead: string,
    gitBehind: string,
    sessionCost: string,
    blockCost: string)

  /** One entry of the `budget` configuration: an amount and a warning threshold, both optional. */
  datatype BudgetItem = BudgetItem(amount: Option<real>, warningThreshold: Option<real>)

  function Paint(text: string, palette: Palette): SegmentData {
    SegmentData(text, palette.bg, palette.fg)
  }

  /** `a || b` on strings: the empty string counts as absent. */
  function OrElse(s: string, fallback: string): string {
    if s == "" then fallback else s
  }

  // ---------------------------------------------------------------- directory

  /** `dir.split("/").pop() || fallback`. */
  function LastName(dir: string, fallback: string): string {
    OrElse(LastSegment(dir, '/'), fallback)
  }

  /** The directory is shown under its project: a non-empty project directory, different from the
      current one, occurs in it. */
  predicate Nested(currentDir: string, projectDir: Option<string>) {
    projectDir.Some? && projectDir.value != "" && projectDir.value != currentDir && Contains(currentDir, projectDir.value)
  }

  /** `getDisplayDirectoryName`. */
  function DisplayDirectoryName(currentDir: string, projectDir: Option<string>): string {
    if projectDir.Some? && projectDir.value != "" && projectDir.value != currentDir then
      var projectName := LastName(projectDir.value, "project");
      var currentDirName := LastName(currentDir, "root");
      if Contains(currentDir, projectDir.value) then projectName + "/" + currentDirName else currentDirName
    else LastName(currentDir, "root")
  }

  /** A fallback-protected last component is never empty and holds no '/'. */
  lemma LastNameShape(dir: string, fallback: string)
    requires fallback != "" && '/' !in fallback
    ensures LastName(dir, fallback) != "" && '/' !in LastName(dir, fallback)
  {
    LastSegmentIsSuffix(dir, '/');
  }

  /** The name is never empty, and it holds a '/' exactly when the directory is shown under its project. */
  lemma DirectoryNameSlashIffNested(currentDir: string, projectDir: Option<string>)
    ensures DisplayDirectoryName(currentDir, projectDir) != ""
    ensures '/' in DisplayDirectoryName(currentDir, projectDir) <==> Nested(currentDir, projectDir)
  {
    LastNameShape(currentDir, "root");
    if projectDir.Some? {
      LastNameShape(projectDir.value, "project");
    }
    if Nested(currentDir, projectDir) {
      var r := DisplayDirectoryName(currentDir, projectDir);
      assert r[|LastName(projectDir.value, "project")|] == '/';
    }
  }

  /** Whatever the project, the last component shown is the current directory's own name: its text after
      the last '/', or "root" when that is empty. */
  lemma DirectoryNameEndsWithOwnName(currentDir: string, projectDir: Option<string>)
    ensures LastSegment(DisplayDirectoryName(currentDir, projectDir), '/') == LastName(currentDir, "root")
  {
    var own := LastName(currentDir, "root");
    LastNameShape(currentDir, "root");
    if Nested(currentDir, projectDir) {
      LastSegmentAfter(LastName(projectDir.value, "project"), '/', own);
      assert LastName(projectDir.value, "project") + "/" + own == LastName(projectDir.value, "project") + ['/'] + own;
    } else {
      var parts := Split(own, '/');
      assert |parts| == 1;
    }
  }

  /** Outside a project the name is the text after the last '/' of the directory, which ends the
      directory and is preceded by a '/' or starts it; "root" when that text is empty. */
  lemma DirectoryNameIsSuffix(currentDir: string, projectDir: Option<string>)
    requires !Nested(currentDir, projectDir)
    ensures var r := DisplayDirectoryName(currentDir, projectDir);
      || (r == "root" && (currentDir == "" || currentDir[|currentDir| - 1] == '/'))
      || (EndsWith(currentDir, r) && '/' !in r && (|r| < |currentDir| ==> currentDir[|currentDir| - |r| - 1] == '/'))
  {
    LastSegmentIsSuffix(currentDir, '/');
  }

  /** `renderDirectory`: the current directory falls back to the working directory, then to "/". */
  function RenderDirectory(currentDir: Option<string>, cwd: Option<string>, projectDir: Option<string>, palette: Palette): (r: SegmentData)
    ensures r.bgColor == palette.bg && r.fgColor == palette.fg
    ensures r.text != ""
  {
    var dir := OrElse(if currentDir.Some? then currentDir.value else "", OrElse(if cwd.Some? then cwd.value else "", "/"));
    DirectoryNameSlashIffNested(dir, projectDir);
    Paint(DisplayDirectoryName(dir, projectDir), palette)
  }

  /** Without any directory the working directory is "/", which shows as "root". */
  lemma NoDirectoryIsRoot(palette: Palette)
    ensures RenderDirectory(None, None, None, palette).text == "root"
  {
    assert Split("/", '/') == ["", ""] by {
      assert Split("", '/') == [""];
    }
  }

  // ---------------------------------------------------------------- git

  datatype GitStatus = Clean | Dirty | Conflicts

  /** What the git service reports; `ahead` and `behind` are commit counts. */
  datatype GitInfo = GitInfo(branch: string, status: GitStatus, ahead: nat, behind: nat, sha: Option<string>)

  /** The status icon: conflicts win over dirty, which wins over clean. */
  function StatusIcon(symbols: Symbols, status: GitStatus): string {
    if status == Conflicts then symbols.gitConflicts
    else if status == Dirty then symbols.gitDirty
    else symbols.gitClean
  }

  /** The sha is shown when there is a non-empty one and it was asked for. */
  predicate ShowsSha(info: GitInfo, showSha: bool) {
    info.sha.Some? && info.sha.value != "" && showSha
  }

  /** The ahead/behind suffix: both counts when both are positive, else the positive one, else nothing. */
  function AheadBehind(symbols: Symbols, info: GitInfo): string {
    if info.ahead > 0 && info.behind > 0 then
      " " + symbols.gitAhead + NatToString(info.ahead) + symbols.gitBehind + NatToString(info.behind)
    else if info.ahead > 0 then " " + symbols.gitAhead + NatToString(info.ahead)
    else if info.behind > 0 then " " + symbols.gitBehind + NatToString(info.behind)
    else ""
  }

  /** The text `renderGit` builds: branch symbol, branch and icon; then the sha when shown; then the
      ahead/behind suffix when the branch is not level with its upstream. */
  function GitText(symbols: Symbols, info: GitInfo, showSha: bool): string {
    var head := symbols.branch + " " + info.branch + " " + StatusIcon(symbols, info.status);
    var withSha := if ShowsSha(info, showSha) then head + (" " + info.sha.value) else head;
    if info.ahead > 0 || info.behind > 0 then withSha + AheadBehind(symbols, info) else withSha
  }

  /** `renderGit`: null without git information, otherwise the text built step by step. */
  method RenderGit(symbols: Symbols, gitInfo: Option<GitInfo>, palette: Palette, showSha: bool) returns (r: Option<SegmentData>)
    ensures r.None? <==> gitInfo.None?
    ensures r.Some? ==> r.value == Paint(GitText(symbols, gitInfo.value, showSha), palette)
  {
    if gitInfo.None? {
      return None;
    }
    var info := gitInfo.value;
    var icon := symbols.gitClean;
    if info.status == Conflicts {
      icon := symbols.gitConflicts;
    } else if info.status == Dirty {
      icon := symbols.gitDirty;
    }
    var text := symbols.branch + " " + info.branch + " " + icon;
    if info.sha.Some? && info.sha.value != "" && showSha {
      text := text + (" " + info.sha.value);
    }
    if info.ahead > 0 && info.behind > 0 {
      text := text + (" " + symbols.gitAhead + NatToString(info.ahead) + symbols.gitBehind + NatToString(info.behind));
    } else if info.ahead > 0 {
      text := text + (" " + symbols.gitAhead + NatToString(info.ahead));
    } else if info.behind > 0 {
      text := text + (" " + symbols.gitBehind + NatToString(info.behind));
    }
    return Some(Paint(text, palette));
  }

  /** The icon never depends on anything but the status, and each status has its own symbol. */
  lemma StatusIconPriority(symbols: Symbols, info: GitInfo, showSha: bool)
    ensures StartsWith(GitText(symbols, info, showSha), symbols.branch + " " + info.branch + " " + StatusIcon(symbols, info.status))
    ensures info.status == Conflicts ==> StatusIcon(symbols, info.status) == symbols.gitConflicts
    ensures info.status == Dirty ==> StatusIcon(symbols, info.status) == symbols.gitDirty
    ensures info.status == Clean ==> StatusIcon(symbols, info.status) == symbols.gitClean
  {
    var head := symbols.branch + " " + info.branch + " " + StatusIcon(symbols, info.status);
    var withSha := if ShowsSha(info, showSha) then head + (" " + info.sha.value) else head;
    if ShowsSha(info, showSha) {
      StartsWithAppend(head, " " + info.sha.value);
    }
    StartsWithAppend(withSha, AheadBehind(symbols, info));
    StartsWithTrans(GitText(symbols, info, showSha), withSha, head);
  }

  /** Without `showSha` the sha makes no difference to the text. */
  lemma ShaNeedsShowSha(symbols: Symbols, info: GitInfo)
    ensures GitText(symbols, info, false) == GitText(symbols, info.(sha := None), true)
  {
  }

  /** The counts suffix is empty exactly when the branch is level with its upstream; otherwise it ends with
      the behind count when there is one, else with the ahead count, and the digits read back as the count. */
  lemma AheadBehindCounts(symbols: Symbols, info: GitInfo)
    ensures AheadBehind(symbols, info) == "" <==> info.ahead == 0 && info.behind == 0
    ensures info.behind > 0 ==> EndsWith(AheadBehind(symbols, info), symbols.gitBehind + NatToString(info.behind))
    ensures info.behind == 0 && info.ahead > 0 ==> EndsWith(AheadBehind(symbols, info), symbols.gitAhead + NatToString(info.ahead))
    ensures info.ahead > 0 && info.behind > 0 ==>
      StartsWith(AheadBehind(symbols, info), " " + symbols.gitAhead + NatToString(info.ahead))
    ensures DigitsValue(NatToString(info.ahead)) == info.ahead && DigitsValue(NatToString(info.behind)) == info.behind
  {
    NatToStringRoundTrip(info.ahead);
    NatToStringRoundTrip(info.behind);
    var t := AheadBehind(symbols, info);
    if info.behind > 0 {
      var tail := symbols.gitBehind + NatToString(info.behind);
      if info.ahead > 0 {
        var head := " " + symbols.gitAhead + NatToString(info.ahead);
        assert t == head + tail;
        assert (head + tail)[|head + tail| - |tail|..] == tail;
        assert (head + tail)[..|head|] == head;
      } else {
        assert t == " " + tail;
        assert (" " + tail)[1..] == tail;
      }
    } else if info.ahead > 0 {
      var tail := symbols.gitAhead + NatToString(info.ahead);
      assert t == " " + tail;
      assert (" " + tail)[1..] == tail;
    }
  }

  // ---------------------------------------------------------------- usage

  /** `formatUsageDisplay`: the text for the configured usage type; an unknown type shows the cost. */
  function FormatUsageDisplay(cost: Option<real>, tokens: Option<nat>, breakdown: Option<TokenBreakdown>, usageType: string): string {
    match usageType
    case "cost" => FormatCost(cost)
    case "tokens" => FormatTokens(tokens)
    case "both" => FormatCost(cost) + " (" + FormatTokens(tokens) + ")"
    case "breakdown" => BreakdownText(breakdown)
    case _ => FormatCost(cost)
  }

  /** A type other than the four known ones is shown as "cost" is. */
  lemma UnknownTypeIsCost(cost: Option<real>, tokens: Option<nat>, breakdown: Option<TokenBreakdown>, usageType: string)
    requires usageType != "tokens" && usageType != "both" && usageType != "breakdown"
    ensures FormatUsageDisplay(cost, tokens, breakdown, usageType) == FormatCost(cost)
  {
  }

  /** "both" shows the cost, then the token count in parentheses. */
  lemma BothShowsCostThenTokens(cost: Option<real>, tokens: Option<nat>, breakdown: Option<TokenBreakdown>)
    ensures var r := FormatUsageDisplay(cost, tokens, breakdown, "both");
      StartsWith(r, FormatCost(cost) + " (") && EndsWith(r, " tokens)")
  {
    var c := FormatCost(cost) + " (";
    var t := FormatTokens(tokens);
    var r := c + t + ")";
    assert FormatUsageDisplay(cost, tokens, breakdown, "both") == r;
    assert r[..|c|] == c;
    assert r[|r| - 8..] == t[|t| - 7..] + ")";
  }

  /** The budget marker is appended when the budget is positive and there is a cost. */
  predicate BudgetApplies(cost: Option<real>, budget: Option<real>) {
    budget.Some? && budget.value > 0.0 && cost.Some?
  }

  /** `formatUsageWithBudget`. */
  function FormatUsageWithBudget(cost: Option<real>, tokens: Option<nat>, breakdown: Option<TokenBreakdown>, usageType: string,
                                 budget: Option<real>, warningThreshold: real): string {
    var baseDisplay := FormatUsageDisplay(cost, tokens, breakdown, usageType);
    if BudgetApplies(cost, budget) then baseDisplay + GetBudgetStatus(cost.value, budget, warningThreshold).displayText
    else baseDisplay
  }

  /** The usage text always comes first, and something follows it exactly when the budget is positive and
      the cost is known and not negative; what follows is the budget status text. */
  lemma BudgetSuffixIff(cost: Option<real>, tokens: Option<nat>, breakdown: Option<TokenBreakdown>, usageType: string,
                        budget: Option<real>, warningThreshold: real)
    ensures var base := FormatUsageDisplay(cost, tokens, breakdown, usageType);
      var r := FormatUsageWithBudget(cost, tokens, breakdown, usageType, budget, warningThreshold);
      && StartsWith(r, base)
      && (r != base <==> BudgetApplies(cost, budget) && cost.value >= 0.0)
      && (r != base ==> r[|base|..] == GetBudgetStatus(cost.value, budget, warningThreshold).displayText)
  {
    var base := FormatUsageDisplay(cost, tokens, breakdown, usageType);
    if BudgetApplies(cost, budget) {
      var d := GetBudgetStatus(cost.value, budget, warningThreshold).displayText;
      DisplayTextBands(cost.value, budget, warningThreshold);
      assert (base + d)[..|base|] == base;
      assert (base + d)[|base|..] == d;
      assert |base + d| == |base| + |d|;
    }
  }

  /** `warningThreshold || 80`: a missing or zero threshold becomes 80. */
  function ThresholdOr80(warningThreshold: Option<real>): (t: real)
    ensures t != 0.0
  {
    if warningThreshold.None? || warningThreshold.value == 0.0 then DefaultWarningThreshold else warningThreshold.value
  }

  /** The usage text of one budgeted period, with the period's budget entry. */
  function BudgetedUsage(info: SessionInfo, usageType: string, budget: Option<BudgetItem>): string {
    var amount := if budget.Some? then budget.value.amount else None;
    var threshold := ThresholdOr80(if budget.Some? then budget.value.warningThreshold else None);
    FormatUsageWithBudget(info.cost, info.tokens, info.tokenBreakdown, usageType, amount, threshold)
  }

  /** `renderSession`: the session symbol, then the session's usage text under the session budget. */
  function RenderSession(symbols: Symbols, usage: UsageInfo, palette: Palette, usageType: string, sessionBudget: Option<BudgetItem>): (r: SegmentData)
    ensures StartsWith(r.text, symbols.sessionCost + " ")
    ensures r.text[|symbols.sessionCost| + 1..] == BudgetedUsage(usage.session, usageType, sessionBudget)
  {
    var u := BudgetedUsage(usage.session, usageType, sessionBudget);
    var t := symbols.sessionCost + " " + u;
    assert t[..|symbols.sessionCost| + 1] == symbols.sessionCost + " ";
    assert t[|symbols.sessionCost| + 1..] == u;
    Paint(t, palette)
  }

  /** `renderToday`: "Today ", then the day's usage text under the today budget. */
  function RenderToday(daily: SessionInfo, palette: Palette, usageType: string, todayBudget: Option<BudgetItem>): (r: SegmentData)
    ensures StartsWith(r.text, "Today ")
    ensures r.text[6..] == BudgetedUsage(daily, usageType, todayBudget)
  {
    var u := BudgetedUsage(daily, usageType, todayBudget);
    assert ("Today " + u)[..6] == "Today ";
    assert ("Today " + u)[6..] == u;
    Paint("Today " + u, palette)
  }

  /** A session without a budget entry shows its usage text alone, whatever the type. */
  lemma NoSessionBudgetNoMarker(symbols: Symbols, usage: UsageInfo, palette: Palette, usageType: string)
    ensures RenderSession(symbols, usage, palette, usageType, None).text ==
      symbols.sessionCost + " " + FormatUsageDisplay(usage.session.cost, usage.session.tokens, usage.session.tokenBreakdown, usageType)
  {
  }

  // ---------------------------------------------------------------- session block

  /** The active five-hour block: its cost, tokens, time left and the two burn rates. */
  datatype SessionBlockInfo = SessionBlockInfo(
    cost: real,
    tokens: nat,
    timeRemaining: int,
    burnRate: Option<real>,
    tokenBurnRate: Option<real>,
    isActive: bool)

  /** The rate the block text shows for its type, when it shows one. */
  predicate ShowsBurnRate(block: SessionBlockInfo, blockType: string) {
    if blockType == "tokens" then block.tokenBurnRate.Some? && block.tokenBurnRate.value > 0.0
    else block.burnRate.Some? && block.burnRate.value > 0.0
  }

  /** The amount the block text starts with: tokens for "tokens", the cost for any other type. */
  function BlockAmount(block: SessionBlockInfo, blockType: string): string {
    if blockType == "tokens" then FormatTokens(Some(block.tokens)) else FormatCost(Some(block.cost))
  }

  /** The burn rate in the unit of the type. */
  function BurnAmount(block: SessionBlockInfo, blockType: string, numberText: real -> string): string
    requires ShowsBurnRate(block, blockType)
  {
    if blockType == "tokens" then FormatTokensOfNumber(block.tokenBurnRate.value, numberText) else FormatCost(Some(block.burnRate.value))
  }

  /** The text `formatSessionBlockInfo` returns; `timeText` is `formatTimeRemaining`, and `numberText`
      is JavaScript's decimal text of a fractional number. */
  function BlockText(block: SessionBlockInfo, blockType: string, timeText: int -> string, numberText: real -> string): string {
    if !block.isActive then "No active block"
    else
      var result := BlockAmount(block, blockType) + " (" + timeText(block.timeRemaining) + " left)";
      if ShowsBurnRate(block, blockType) then result + (" " + BurnAmount(block, blockType, numberText) + "/hr") else result
  }

  /** `formatSessionBlockInfo`: the amount and time left, then a burn-rate suffix appended to `result`. */
  method FormatSessionBlockInfo(block: SessionBlockInfo, blockType: string, timeText: int -> string, numberText: real -> string) returns (result: string)
    ensures result == BlockText(block, blockType, timeText, numberText)
  {
    if !block.isActive {
      return "No active block";
    }
    var timeStr := timeText(block.timeRemaining);
    if blockType == "tokens" {
      result := FormatTokens(Some(block.tokens)) + " (" + timeStr + " left)";
      if block.tokenBurnRate.Some? && block.tokenBurnRate.value > 0.0 {
        var burnRateStr := FormatTokensOfNumber(block.tokenBurnRate.value, numberText) + "/hr";
        result := result + (" " + burnRateStr);
      }
    } else {
      result := FormatCost(Some(block.cost)) + " (" + timeStr + " left)";
      if block.burnRate.Some? && block.burnRate.value > 0.0 {
        var burnRateStr := FormatCost(Some(block.burnRate.value)) + "/hr";
        result := result + (" " + burnRateStr);
      }
    }
  }

  /** An inactive block says so. An active one starts with its amount, and ends in "/hr" exactly when its
      rate is known and positive, and in " left)" otherwise. */
  lemma BlockTextShape(block: SessionBlockInfo, blockType: string, timeText: int -> string, numberText: real -> string)
    ensures !block.isActive ==> BlockText(block, blockType, timeText, numberText) == "No active block"
    ensures block.isActive ==> StartsWith(BlockText(block, blockType, timeText, numberText), BlockAmount(block, blockType))
    ensures block.isActive ==>
      (EndsWith(BlockText(block, blockType, timeText, numberText), "/hr") <==> ShowsBurnRate(block, blockType))
    ensures block.isActive && !ShowsBurnRate(block, blockType) ==> EndsWith(BlockText(block, blockType, timeText, numberText), " left)")
  {
    if block.isActive {
      var amount := BlockAmount(block, blockType);
      var result := amount + (" (" + timeText(block.timeRemaining) + " left)");
      assert result == amount + " (" + timeText(block.timeRemaining) + " left)";
      StartsWithAppend(amount, " (" + timeText(block.timeRemaining) + " left)");
      EndsWithAppend(amount + " (" + timeText(block.timeRemaining), " left)");
      if ShowsBurnRate(block, blockType) {
        var burn := " " + BurnAmount(block, blockType, numberText) + "/hr";
        StartsWithAppend(result, burn);
        StartsWithTrans(result + burn, result, amount);
        EndsWithAppend(" " + BurnAmount(block, blockType, numberText), "/hr");
        EndsWithAppend(result, burn);
        assert (result + burn)[|result + burn| - 3..] == burn[|burn| - 3..];
      } else {
        assert result[|result| - 1] == ')';
      }
    }
  }

  /** `renderBlock`: null without a block, otherwise the block symbol and the block text. */
  function RenderBlock(symbols: Symbols, block: Option<SessionBlockInfo>, palette: Palette, blockType: string, timeText: int -> string, numberText: real -> string): (r: Option<SegmentData>)
    ensures r.None? <==> block.None?
    ensures r.Some? ==> StartsWith(r.value.text, symbols.blockCost + " ")
    ensures r.Some? ==> r.value.text[|symbols.blockCost| + 1..] == BlockText(block.value, blockType, timeText, numberText)
  {
    if block.None? then None
    else
      var b := BlockText(block.value, blockType, timeText, numberText);
      var t := symbols.blockCost + " " + b;
      assert t[..|symbols.blockCost| + 1] == symbols.blockCost + " ";
      assert t[|symbols.blockCost| + 1..] == b;
      Some(Paint(t, palette))
  }

  // ---------------------------------------------------------------- tmux and context

  /** `renderTmux`: null without a session id (the empty id included), otherwise "tmux:" and the id. */
  function RenderTmux(sessionId: Option<string>, palette: Palette): (r: Option<SegmentData>)
    ensures r.None? <==> sessionId.None? || sessionId.value == ""
    ensures r.Some? ==> StartsWith(r.value.text, "tmux:") && r.value.text[5..] == sessionId.value
  {
    if sessionId.None? || sessionId.value == "" then None
    else
      assert ("tmux:" + sessionId.value)[..5] == "tmux:";
      assert ("tmux:" + sessionId.value)[5..] == sessionId.value;
      Some(Paint("tmux:" + sessionId.value, palette))
  }

  /** The text of a context segment: the mark, the input tokens grouped by thousands, and the share of the
      window left in parentheses. */
  function ContextText(mark: string, info: ContextInfo): string {
    mark + " " + GroupThousands(info.inputTokens) + " (" + IntToString(info.contextLeftPercentage) + "%)"
  }

  /** The token count sits right after the mark and holds only digits and commas; the text ends with the
      share left and "%)". */
  lemma ContextTextParts(mark: string, info: ContextInfo)
    ensures var t := ContextText(mark, info); var g := GroupThousands(info.inputTokens);
      && StartsWith(t, mark + " ")
      && t[|mark| + 1..|mark| + 1 + |g|] == g
      && (forall i :: |mark| + 1 <= i < |mark| + 1 + |g| ==> IsDigit(t[i]) || t[i] == ',')
      && EndsWith(t, " (" + IntToString(info.contextLeftPercentage) + "%)")
  {
    var g := GroupThousands(info.inputTokens);
    var head := mark + " ";
    var tail := " (" + IntToString(info.contextLeftPercentage) + "%)";
    var t := ContextText(mark, info);
    assert t == head + g + tail;
    assert t[..|head|] == head;
    assert t[|head|..|head| + |g|] == g;
    forall i | |head| <= i < |head| + |g|
      ensures IsDigit(t[i]) || t[i] == ','
    {
      assert t[i] == g[i - |head|];
    }
    assert t[|t| - |tail|..] == tail;
  }

  /** The context mark this renderer writes: the UTF-8 bytes of U+22A1 (a squared dot) decoded as Windows-1252. */
  const ContextMark: string := "\U{00E2}\U{0160}\U{00A1}"

  /** `renderContext`: null without context information. */
  function RenderContext(contextInfo: Option<ContextInfo>, palette: Palette): (r: Option<SegmentData>)
    ensures r.None? <==> contextInfo.None?
    ensures r.Some? ==> r.value.text == ContextText(ContextMark, contextInfo.value)
  {
    if contextInfo.None? then None else Some(Paint(ContextText(ContextMark, contextInfo.value), palette))
  }
}
