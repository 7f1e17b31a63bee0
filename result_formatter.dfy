/** The Markdown rendering of analysis results and of a project's scan history.
    The methods build the text step by step, as the source does with `+=`; the
    functions beside them are the specification each method is proved against. */
module ResultFormatter {
  import opened Wrappers
  import opened Records
  import opened Text

  /** Present and non-empty, the test `xs && xs.length > 0`. */
  predicate HasEntries<T>(o: Option<seq<T>>) {
    o.Some? && |o.value| > 0
  }

  // ------------------------------------------------------------- numbering

  /** The blocks `entry(first, s[0]) + entry(first + 1, s[1]) + ...`: a
      `forEach((x, idx) => output += ...)` whose numbers start at `first`. */
  function Enumerate<T>(s: seq<T>, first: nat, entry: (nat, T) -> string): string
    decreases |s|
  {
    if s == [] then "" else entry(first, s[0]) + Enumerate(s[1..], first + 1, entry)
  }

  lemma {:induction false} EnumerateAppend<T>(s: seq<T>, t: seq<T>, first: nat, entry: (nat, T) -> string)
    ensures Enumerate(s + t, first, entry) == Enumerate(s, first, entry) + Enumerate(t, first + |s|, entry)
    decreases |s|
  {
    if s == [] {
      assert s + t == t;
    } else {
      EnumerateAppend(s[1..], t, first + 1, entry);
      assert (s + t)[1..] == s[1..] + t;
    }
  }

  /** One more element of a prefix adds one more block, numbered after the
      others: the step of a `forEach` over `s`. */
  lemma EnumeratePrefix<T>(s: seq<T>, i: nat, first: nat, entry: (nat, T) -> string)
    requires i < |s|
    ensures Enumerate(s[..i + 1], first, entry) == Enumerate(s[..i], first, entry) + entry(first + i, s[i])
  {
    assert s[..i + 1] == s[..i] + [s[i]];
    EnumerateAppend(s[..i], [s[i]], first, entry);
  }

  /** The prefix of every element is the whole sequence. */
  lemma EnumerateWhole<T>(s: seq<T>, first: nat, entry: (nat, T) -> string)
    ensures Enumerate(s[..|s|], first, entry) == Enumerate(s, first, entry)
  {
    assert s[..|s|] == s;
  }

  /** Element `i` is rendered in place `i`, numbered `first + i`, after the
      blocks of the elements before it and before those of the elements after it. */
  lemma EnumerateAt<T>(s: seq<T>, first: nat, entry: (nat, T) -> string, i: nat)
    requires i < |s|
    ensures Enumerate(s, first, entry) ==
      Enumerate(s[..i], first, entry) + entry(first + i, s[i]) + Enumerate(s[i + 1..], first + i + 1, entry)
  {
    assert s == s[..i] + ([s[i]] + s[i + 1..]);
    EnumerateAppend(s[..i], [s[i]] + s[i + 1..], first, entry);
    EnumerateAppend([s[i]], s[i + 1..], first + i, entry);
  }

  // ---------------------------------------------------------------- analysis

  function AnalysisHeader(r: AnalysisResult, loc: Locale): string {
    ("# Analysis Results: " + r.projectName + "\n\n")
    + ("**Project Type**: " + r.projectType + "\n")
    + ("**Scan Date**: " + loc.dateTime(r.scanDate) + "\n")
    + ("**Complexity Factor**: " + r.complexityFactor + "\n\n")
  }

  function StatisticsBlock(s: Stats): string {
    "## Statistics\n\n"
    + ("- **Total Issues**: " + s.totalIssues + "\n")
    + ("- **High Severity**: " + s.highSeverity + "\n")
    + ("- **Medium Severity**: " + s.mediumSeverity + "\n")
    + ("- **Low Severity**: " + s.lowSeverity + "\n\n")
  }

  /** The block of the summary entry numbered `n`. */
  function FindingEntry(n: nat, f: Finding): string {
    ("### " + NatToDecimal(n) + ". " + f.category + "\n")
    + ("- **Pattern**: " + f.pattern + "\n")
    + ("- **Count**: " + f.count + "\n")
    + ("- **Severity**: " + f.severity + "\n")
    + ("- **Effort**: " + f.effort + " points\n\n")
  }

  function SummarySection(summary: Option<seq<Finding>>): string {
    if HasEntries(summary) then "## Summary Findings\n\n" + Enumerate(summary.value, 1, FindingEntry) else ""
  }

  /** A sub-action line. Sub-actions are bulleted, so the position `n` is not
      shown, and neither is the description. */
  function SubActionLine(n: nat, sub: SubAction): string {
    "   - " + sub.action + " (" + sub.effort + " points)\n"
  }

  function SubActionLines(a: Action): string {
    if HasEntries(a.subActions) then Enumerate(a.subActions.value, 1, SubActionLine) else ""
  }

  /** The block of the recommended action numbered `n`: its line, one line per
      sub-action, and a blank line. */
  function ActionEntry(n: nat, a: Action): string {
    (NatToDecimal(n) + ". **" + a.category + "** (" + a.effortWeight + " points)\n") + SubActionLines(a) + "\n"
  }

  function ActionsSection(actions: Option<seq<Action>>): string {
    if HasEntries(actions) then "## Recommended Actions\n\n" + Enumerate(actions.value, 1, ActionEntry) else ""
  }

  /** The whole rendering of an analysis result. The header and the statistics
      are always there; without findings and actions they are all there is. */
  function AnalysisText(r: AnalysisResult, loc: Locale): (text: string)
    ensures AnalysisHeader(r, loc) + StatisticsBlock(r.stats) <= text
    ensures !HasEntries(r.summary) && !HasEntries(r.actions) ==> text == AnalysisHeader(r, loc) + StatisticsBlock(r.stats)
  {
    AnalysisHeader(r, loc) + StatisticsBlock(r.stats) + SummarySection(r.summary) + ActionsSection(r.actions)
  }

  /** The text opens with the project's title line, then its type, scan date and
      complexity lines. */
  lemma AnalysisTextOpening(r: AnalysisResult, loc: Locale)
    ensures ("# Analysis Results: " + r.projectName + "\n\n")
            + ("**Project Type**: " + r.projectType + "\n")
            + ("**Scan Date**: " + loc.dateTime(r.scanDate) + "\n")
            + ("**Complexity Factor**: " + r.complexityFactor + "\n\n") <= AnalysisText(r, loc)
  {
    var h, st, su, ac := AnalysisHeader(r, loc), StatisticsBlock(r.stats), SummarySection(r.summary), ActionsSection(r.actions);
    AppendAssoc(h + st, su, ac);
    AppendAssoc(h, st, su + ac);
    assert AnalysisText(r, loc) == h + (st + (su + ac));
  }

  /** The summary section, followed by the actions section, opens with the
      summary heading exactly when the summary has entries. */
  lemma SummaryHeadingLeads(summary: Option<seq<Finding>>, actions: Option<seq<Action>>)
    ensures "## Summary Findings\n\n" <= SummarySection(summary) + ActionsSection(actions) <==> HasEntries(summary)
  {
    var ac := ActionsSection(actions);
    if HasEntries(summary) {
      AppendAssoc("## Summary Findings\n\n", Enumerate(summary.value, 1, FindingEntry), ac);
    } else {
      assert SummarySection(summary) + ac == ac;
      if HasEntries(actions) {
        assert ac[3] == 'R';
      }
    }
  }

  /** Right after the statistics, the summary heading comes exactly when the
      summary is present and non-empty; an empty summary leaves no heading. */
  lemma SummaryHeadingIff(r: AnalysisResult, loc: Locale)
    ensures var k := |AnalysisHeader(r, loc) + StatisticsBlock(r.stats)|;
      k <= |AnalysisText(r, loc)|
      && ("## Summary Findings\n\n" <= AnalysisText(r, loc)[k..] <==> HasEntries(r.summary))
  {
    var head := AnalysisHeader(r, loc) + StatisticsBlock(r.stats);
    var su, ac := SummarySection(r.summary), ActionsSection(r.actions);
    AppendAssoc(head, su, ac);
    assert AnalysisText(r, loc)[|head|..] == su + ac;
    SummaryHeadingLeads(r.summary, r.actions);
  }

  /** After the summary section, the actions heading comes exactly when the
      actions are present and non-empty; otherwise the text ends there. */
  lemma ActionsHeadingIff(r: AnalysisResult, loc: Locale)
    ensures var k := |AnalysisHeader(r, loc) + StatisticsBlock(r.stats) + SummarySection(r.summary)|;
      k <= |AnalysisText(r, loc)|
      && ("## Recommended Actions\n\n" <= AnalysisText(r, loc)[k..] <==> HasEntries(r.actions))
  {
    var head := AnalysisHeader(r, loc) + StatisticsBlock(r.stats) + SummarySection(r.summary);
    assert AnalysisText(r, loc)[|head|..] == ActionsSection(r.actions);
  }

  /** The result with every sub-action description removed. */
  function StripDescriptions(r: AnalysisResult): AnalysisResult {
    r.(actions := if r.actions.Some? then Some(StripActions(r.actions.value)) else None)
  }

  function StripActions(s: seq<Action>): (t: seq<Action>)
    ensures |t| == |s|
    decreases |s|
  {
    if s == [] then [] else [StripAction(s[0])] + StripActions(s[1..])
  }

  function StripAction(a: Action): Action {
    a.(subActions := if a.subActions.Some? then Some(StripSubActions(a.subActions.value)) else None)
  }

  function StripSubActions(s: seq<SubAction>): (t: seq<SubAction>)
    ensures |t| == |s|
    decreases |s|
  {
    if s == [] then [] else [s[0].(description := None)] + StripSubActions(s[1..])
  }

  lemma {:induction false} SubActionLinesIgnoreDescriptions(s: seq<SubAction>, n: nat)
    ensures Enumerate(StripSubActions(s), n, SubActionLine) == Enumerate(s, n, SubActionLine)
    decreases |s|
  {
    if s != [] {
      SubActionLinesIgnoreDescriptions(s[1..], n + 1);
      assert StripSubActions(s)[1..] == StripSubActions(s[1..]);
    }
  }

  lemma {:induction false} ActionEntriesIgnoreDescriptions(s: seq<Action>, n: nat)
    ensures Enumerate(StripActions(s), n, ActionEntry) == Enumerate(s, n, ActionEntry)
    decreases |s|
  {
    if s != [] {
      ActionEntriesIgnoreDescriptions(s[1..], n + 1);
      assert StripActions(s)[1..] == StripActions(s[1..]);
      if s[0].subActions.Some? {
        SubActionLinesIgnoreDescriptions(s[0].subActions.value, 1);
      }
      assert ActionEntry(n, StripAction(s[0])) == ActionEntry(n, s[0]);
    }
  }

  /** Sub-action descriptions never reach the rendered text. */
  lemma DescriptionsNotRendered(r: AnalysisResult, loc: Locale)
    ensures AnalysisText(StripDescriptions(r), loc) == AnalysisText(r, loc)
  {
    if r.actions.Some? {
      ActionEntriesIgnoreDescriptions(r.actions.value, 1);
    }
  }

  /** The callback of `summary.forEach`: appends the block of entry `idx`. */
  method AppendFinding(output: string, idx: nat, finding: Finding) returns (result: string)
    ensures result == output + FindingEntry(idx + 1, finding)
  {
    result := output + ("### " + NatToDecimal(idx + 1) + ". " + finding.category + "\n");
    result := result + ("- **Pattern**: " + finding.pattern + "\n");
    result := result + ("- **Count**: " + finding.count + "\n");
    result := result + ("- **Severity**: " + finding.severity + "\n");
    result := result + ("- **Effort**: " + finding.effort + " points\n\n");
  }

  /** `summary.forEach(...)`: appends the numbered blocks of every entry. */
  method AppendFindings(output: string, summary: seq<Finding>) returns (result: string)
    ensures result == output + Enumerate(summary, 1, FindingEntry)
  {
    result := output;
    var idx := 0;
    while idx < |summary|
      invariant idx <= |summary|
      invariant result == output + Enumerate(summary[..idx], 1, FindingEntry)
    {
      result := AppendFinding(result, idx, summary[idx]);
      EnumeratePrefix(summary, idx, 1, FindingEntry);
      AppendAssoc(output, Enumerate(summary[..idx], 1, FindingEntry), FindingEntry(1 + idx, summary[idx]));
      idx := idx + 1;
    }
    EnumerateWhole(summary, 1, FindingEntry);
  }

  /** `action.subActions.forEach(...)`: appends one line per sub-action. */
  method AppendSubActions(output: string, subs: seq<SubAction>) returns (result: string)
    ensures result == output + Enumerate(subs, 1, SubActionLine)
  {
    result := output;
    var j := 0;
    while j < |subs|
      invariant j <= |subs|
      invariant result == output + Enumerate(subs[..j], 1, SubActionLine)
    {
      result := result + ("   - " + subs[j].action + " (" + subs[j].effort + " points)\n");
      EnumeratePrefix(subs, j, 1, SubActionLine);
      AppendAssoc(output, Enumerate(subs[..j], 1, SubActionLine), SubActionLine(1 + j, subs[j]));
      j := j + 1;
    }
    EnumerateWhole(subs, 1, SubActionLine);
  }

  /** The callback of `actions.forEach`: appends the block of action `idx`. */
  method AppendAction(output: string, idx: nat, action: Action) returns (result: string)
    ensures result == output + ActionEntry(idx + 1, action)
  {
    result := output + (NatToDecimal(idx + 1) + ". **" + action.category + "** (" + action.effortWeight + " points)\n");
    ghost var heading := result;
    if HasEntries(action.subActions) {
      result := AppendSubActions(result, action.subActions.value);
    }
    assert result == heading + SubActionLines(action);
    result := result + "\n";
  }

  /** `actions.forEach(...)`: appends the numbered blocks of every action. */
  method AppendActions(output: string, actions: seq<Action>) returns (result: string)
    ensures result == output + Enumerate(actions, 1, ActionEntry)
  {
    result := output;
    var idx := 0;
    while idx < |actions|
      invariant idx <= |actions|
      invariant result == output + Enumerate(actions[..idx], 1, ActionEntry)
    {
      result := AppendAction(result, idx, actions[idx]);
      EnumeratePrefix(actions, idx, 1, ActionEntry);
      AppendAssoc(output, Enumerate(actions[..idx], 1, ActionEntry), ActionEntry(1 + idx, actions[idx]));
      idx := idx + 1;
    }
    EnumerateWhole(actions, 1, ActionEntry);
  }

  /** The statistics lines of `formatAnalysisResult`. */
  method AppendStatistics(output: string, stats: Stats) returns (result: string)
    ensures result == output + StatisticsBlock(stats)
  {
    result := output + "## Statistics\n\n";
    result := result + ("- **Total Issues**: " + stats.totalIssues + "\n");
    result := result + ("- **High Severity**: " + stats.highSeverity + "\n");
    result := result + ("- **Medium Severity**: " + stats.mediumSeverity + "\n");
    result := result + ("- **Low Severity**: " + stats.lowSeverity + "\n\n");
  }

  /** `formatAnalysisResult`. */
  method FormatAnalysisResult(result: AnalysisResult, loc: Locale) returns (output: string)
    ensures output == AnalysisText(result, loc)
  {
    output := "# Analysis Results: " + result.projectName + "\n\n";
    output := output + ("**Project Type**: " + result.projectType + "\n");
    output := output + ("**Scan Date**: " + loc.dateTime(result.scanDate) + "\n");
    output := output + ("**Complexity Factor**: " + result.complexityFactor + "\n\n");
    output := AppendStatistics(output, result.stats);
    ghost var opening := output;

    if HasEntries(result.summary) {
      output := output + "## Summary Findings\n\n";
      output := AppendFindings(output, result.summary.value);
      AppendAssoc(opening, "## Summary Findings\n\n", Enumerate(result.summary.value, 1, FindingEntry));
    }
    ghost var afterSummary := output;

    if HasEntries(result.actions) {
      output := output + "## Recommended Actions\n\n";
      output := AppendActions(output, result.actions.value);
      AppendAssoc(afterSummary, "## Recommended Actions\n\n", Enumerate(result.actions.value, 1, ActionEntry));
    }
  }

  // ----------------------------------------------------------------- history

  /** The block of the scan numbered `n`. */
  function ScanEntry(loc: Locale, n: nat, s: Scan): string {
    ("## Scan " + NatToDecimal(n) + ": " + loc.date(s.scanDate) + "\n")
    + ("- **Total Issues**: " + IntToDecimal(s.totalIssues) + "\n")
    + ("- **Complexity**: " + s.complexityFactor + "\n")
    + ("- **Effort Required**: " + s.totalEffort + " points\n\n")
  }

  /** The scan renderer for one locale. */
  function ScanBlocks(loc: Locale): (nat, Scan) -> string {
    (n: nat, s: Scan) => ScanEntry(loc, n, s)
  }

  /** The callback of `findings.forEach`: appends the block of scan `idx`. */
  method AppendScan(output: string, loc: Locale, idx: nat, finding: Scan) returns (result: string)
    ensures result == output + ScanEntry(loc, idx + 1, finding)
  {
    result := output + ("## Scan " + NatToDecimal(idx + 1) + ": " + loc.date(finding.scanDate) + "\n");
    result := result + ("- **Total Issues**: " + IntToDecimal(finding.totalIssues) + "\n");
    result := result + ("- **Complexity**: " + finding.complexityFactor + "\n");
    result := result + ("- **Effort Required**: " + finding.totalEffort + " points\n\n");
  }

  /** `findings.forEach(...)`: appends the numbered blocks of every scan. */
  method AppendScans(output: string, loc: Locale, findings: seq<Scan>) returns (result: string)
    ensures result == output + Enumerate(findings, 1, ScanBlocks(loc))
  {
    result := output;
    var idx := 0;
    while idx < |findings|
      invariant idx <= |findings|
      invariant result == output + Enumerate(findings[..idx], 1, ScanBlocks(loc))
    {
      result := AppendScan(result, loc, idx, findings[idx]);
      EnumeratePrefix(findings, idx, 1, ScanBlocks(loc));
      AppendAssoc(output, Enumerate(findings[..idx], 1, ScanBlocks(loc)), ScanEntry(loc, 1 + idx, findings[idx]));
      idx := idx + 1;
    }
    EnumerateWhole(findings, 1, ScanBlocks(loc));
  }

  function Abs(x: int): nat {
    if x < 0 then -x else x
  }

  function TrendLabel(change: int): string {
    if change > 0 then "\U{1F4C8} Increasing"
    else if change < 0 then "\U{1F4C9} Decreasing"
    else "\U{27A1}\U{FE0F} Stable"
  }

  /** The trend line for a change in issue count. Its first symbol tells the
      direction: 📈 for an increase, 📉 for a decrease, ➡ for none. */
  function TrendLine(change: int): (line: string)
    ensures |line| > 0 && line[|line| - 1] == '\n'
    ensures line[0] == '\U{1F4C8}' <==> change > 0
    ensures line[0] == '\U{1F4C9}' <==> change < 0
    ensures line[0] == '\U{27A1}' <==> change == 0
  {
    TrendLabel(change) + ": " + NatToDecimal(Abs(change)) + " issues " + (if change > 0 then "added" else "resolved") + "\n"
  }

  /** The latest scan's issue count minus the earliest one's. */
  function Change(findings: seq<Scan>): int
    requires |findings| > 0
  {
    findings[|findings| - 1].totalIssues - findings[0].totalIssues
  }

  function TrendSection(findings: seq<Scan>): string {
    if |findings| > 1 then "## Trend Analysis\n\n" + TrendLine(Change(findings)) else ""
  }

  function HistoryHeader(projectName: string, count: nat): string {
    ("# Historical Findings: " + projectName + "\n\n") + ("**Total Scans**: " + NatToDecimal(count) + "\n\n")
  }

  /** The whole rendering of a scan history: the header and the scan blocks,
      then the trend section, which is empty for fewer than two scans. */
  function HistoryText(findings: seq<Scan>, projectName: string, loc: Locale): (text: string)
    ensures HistoryHeader(projectName, |findings|) + Enumerate(findings, 1, ScanBlocks(loc)) <= text
    ensures |findings| <= 1 ==> text == HistoryHeader(projectName, |findings|) + Enumerate(findings, 1, ScanBlocks(loc))
  {
    HistoryHeader(projectName, |findings|) + Enumerate(findings, 1, ScanBlocks(loc)) + TrendSection(findings)
  }

  /** Each direction prints its own label and the size of the change: an
      increase is `added`, a decrease `resolved`, and no change prints
      `0 issues resolved`. */
  lemma TrendLineCases(change: int)
    ensures change > 0 ==> TrendLine(change) == "\U{1F4C8} Increasing" + ": " + NatToDecimal(change) + " issues " + "added" + "\n"
    ensures change < 0 ==> TrendLine(change) == "\U{1F4C9} Decreasing" + ": " + NatToDecimal(-change) + " issues " + "resolved" + "\n"
    ensures change == 0 ==> TrendLine(change) == "\U{27A1}\U{FE0F} Stable" + ": " + "0" + " issues " + "resolved" + "\n"
  {
    if change == 0 {
      assert NatToDecimal(0) == "0";
    }
  }

  /** A proof step of `TrendLineInjective`: the pieces of a trend line,
      regrouped as label, separator and the rest. */
  lemma RegroupTrendLine(tag: string, digits: string, word: string)
    ensures tag + ": " + digits + " issues " + word + "\n" == (tag + ": ") + (digits + (" issues " + word + "\n"))
  {
    AppendAssoc(tag + ": ", digits, " issues ");
    AppendAssoc(tag + ": ", digits + " issues ", word);
    AppendAssoc(tag + ": ", digits + " issues " + word, "\n");
    AppendAssoc(digits, " issues ", word);
    AppendAssoc(digits, " issues " + word, "\n");
    AppendAssoc(digits + " issues ", word, "\n");
  }

  /** The trend line determines the change exactly: its direction and its size. */
  lemma TrendLineInjective(a: int, b: int)
    requires TrendLine(a) == TrendLine(b)
    ensures a == b
  {
    var la, lb := TrendLabel(a), TrendLabel(b);
    var wa, wb := (if a > 0 then "added" else "resolved"), (if b > 0 then "added" else "resolved");
    var da, db := NatToDecimal(Abs(a)), NatToDecimal(Abs(b));
    RegroupTrendLine(la, da, wa);
    RegroupTrendLine(lb, db, wb);
    assert TrendLine(a)[0] == la[0] && TrendLine(b)[0] == lb[0];
    assert la == lb;
    var ra, rb := " issues " + wa + "\n", " issues " + wb + "\n";
    assert da + ra == TrendLine(a)[|la + ": "|..];
    assert db + rb == TrendLine(b)[|lb + ": "|..];
    DigitRunUnique(da, ra, db, rb);
    NatToDecimalInjective(Abs(a), Abs(b));
  }

  /** Only the first and the last scan decide the trend; the scans between them do not. */
  lemma TrendIgnoresMiddle(f: seq<Scan>, g: seq<Scan>)
    requires |f| > 1 && |g| > 1
    requires f[0].totalIssues == g[0].totalIssues
    requires f[|f| - 1].totalIssues == g[|g| - 1].totalIssues
    ensures TrendSection(f) == TrendSection(g)
  {
  }

  /** After the scan blocks, the trend heading comes exactly when there are at
      least two scans; otherwise the text ends there. */
  lemma TrendHeadingIff(findings: seq<Scan>, projectName: string, loc: Locale)
    ensures var k := |HistoryHeader(projectName, |findings|) + Enumerate(findings, 1, ScanBlocks(loc))|;
      k <= |HistoryText(findings, projectName, loc)|
      && ("## Trend Analysis\n\n" <= HistoryText(findings, projectName, loc)[k..] <==> |findings| > 1)
  {
    var head := HistoryHeader(projectName, |findings|) + Enumerate(findings, 1, ScanBlocks(loc));
    assert HistoryText(findings, projectName, loc) == head + TrendSection(findings);
    assert HistoryText(findings, projectName, loc)[|head|..] == TrendSection(findings);
  }

  /** The history opens with its title and the number of scans. */
  lemma HistoryCountsScans(findings: seq<Scan>, projectName: string, loc: Locale)
    ensures ("# Historical Findings: " + projectName + "\n\n")
            + ("**Total Scans**: " + NatToDecimal(|findings|) + "\n\n") <= HistoryText(findings, projectName, loc)
  {
    var scans := Enumerate(findings, 1, ScanBlocks(loc));
    AppendAssoc(HistoryHeader(projectName, |findings|), scans, TrendSection(findings));
  }

  /** Two scans with 10 then 14 issues report an increase of 4. */
  lemma TrendIncreaseExample(s1: Scan, s2: Scan)
    requires s1.totalIssues == 10 && s2.totalIssues == 14
    ensures TrendSection([s1, s2]) == "## Trend Analysis\n\n" + "\U{1F4C8} Increasing: 4 issues added\n"
  {
    assert Change([s1, s2]) == 4;
    assert NatToDecimal(4) == "4";
  }

  /** Two scans with equal counts report `Stable` with a count of 0, and the
      word `resolved`. */
  lemma TrendStableExample(s1: Scan, s2: Scan)
    requires s1.totalIssues == s2.totalIssues
    ensures TrendSection([s1, s2]) == "## Trend Analysis\n\n" + "\U{27A1}\U{FE0F} Stable: 0 issues resolved\n"
  {
    assert Change([s1, s2]) == 0;
    assert NatToDecimal(0) == "0";
  }

  /** `formatHistoricalFindings`. */
  method FormatHistoricalFindings(findings: seq<Scan>, projectName: string, loc: Locale) returns (output: string)
    ensures output == HistoryText(findings, projectName, loc)
  {
    output := "# Historical Findings: " + projectName + "\n\n";
    output := output + ("**Total Scans**: " + NatToDecimal(|findings|) + "\n\n");
    output := AppendScans(output, loc, findings);
    ghost var scans := output;

    if |findings| > 1 {
      var first := findings[0];
      var last := findings[|findings| - 1];
      var change := last.totalIssues - first.totalIssues;
      var trend := if change > 0 then "\U{1F4C8} Increasing" else if change < 0 then "\U{1F4C9} Decreasing" else "\U{27A1}\U{FE0F} Stable";
      output := output + "## Trend Analysis\n\n";
      output := output + (trend + ": " + NatToDecimal(Abs(change)) + " issues " + (if change > 0 then "added" else "resolved") + "\n");
      assert change == Change(findings);
      AppendAssoc(scans, "## Trend Analysis\n\n", TrendLine(change));
    }
  }

  // ------------------------------------------------------------------- error

  const ErrorPrefix := "\U{274C} **Error**: "
  const RetryHint := "\n\nPlease check your input and try again."

  /** `formatError`: the error's message between a fixed marker and a fixed
      retry hint, from which it can be read back. */
  function FormatError(message: string): (text: string)
    ensures ErrorPrefix <= text
    ensures |text| == |ErrorPrefix| + |message| + |RetryHint|
    ensures text[|ErrorPrefix|..|text| - |RetryHint|] == message
    ensures text[|text| - |RetryHint|..] == RetryHint
  {
    ErrorPrefix + message + RetryHint
  }
}
