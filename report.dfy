/** Report agent (backend/app/agents/report_agent.py): the texts, table rows,
    status colouring and numbered recommendation entries the PDF report is
    built from, and the result record of `generate_report`. Page layout and
    the PDF renderer are not modelled; the outcome of writing the file is an
    input. */
module Report {
  import opened Wrappers
  import opened Measurements
  import Text
  import Analysis
  import Screenshot

  type Row = seq<string>

  // ---------------------------------------------------------------------------
  // Rating helpers
  // ---------------------------------------------------------------------------

  /** `_get_score_rating`. */
  function ScoreRating(score: real): (r: string)
    ensures r == "Excellent" <==> score >= 90.0
    ensures r == "Good" <==> 75.0 <= score < 90.0
    ensures r == "Fair" <==> 50.0 <= score < 75.0
    ensures r == "Poor" <==> score < 50.0
  {
    if score >= 90.0 then "Excellent"
    else if score >= 75.0 then "Good"
    else if score >= 50.0 then "Fair"
    else "Poor"
  }

  /** Good below `good`, Needs Improvement below `poor`, else Poor. */
  function TimingRating(x: real, good: real, poor: real): (r: string)
    requires good < poor
    ensures r == "Good" <==> x < good
    ensures r == "Needs Improvement" <==> good <= x < poor
    ensures r == "Poor" <==> x >= poor
  {
    if x < good then "Good" else if x < poor then "Needs Improvement" else "Poor"
  }

  /** `_get_fcp_rating`. */
  function FcpRating(fcp: real): string {
    TimingRating(fcp, 1800.0, 3000.0)
  }

  /** `_get_lcp_rating`. */
  function LcpRating(lcp: real): string {
    TimingRating(lcp, 2500.0, 4000.0)
  }

  /** The report's score rating and the summary's overall rating put every
      score in the same bucket. */
  lemma ScoreRatingAgrees(score: real)
    ensures ScoreRating(score) == "Excellent" <==> Analysis.PerformanceRating(score) == Analysis.Excellent
    ensures ScoreRating(score) == "Good" <==> Analysis.PerformanceRating(score) == Analysis.Good
    ensures ScoreRating(score) == "Fair" <==> Analysis.PerformanceRating(score) == Analysis.Fair
    ensures ScoreRating(score) == "Poor" <==> Analysis.PerformanceRating(score) == Analysis.Poor
  {
    Analysis.PerformanceRatingBuckets(score);
  }

  /** The report's FCP and LCP ratings and the summary's key-metric words
      agree bucket for bucket. */
  lemma TimingRatingsAgree(fcp: real, lcp: real)
    ensures FcpRating(fcp) == "Good" <==> Analysis.MetricRating(fcp, 1800.0, 3000.0) == "good"
    ensures FcpRating(fcp) == "Poor" <==> Analysis.MetricRating(fcp, 1800.0, 3000.0) == "poor"
    ensures LcpRating(lcp) == "Good" <==> Analysis.MetricRating(lcp, 2500.0, 4000.0) == "good"
    ensures LcpRating(lcp) == "Poor" <==> Analysis.MetricRating(lcp, 2500.0, 4000.0) == "poor"
  {
    Analysis.MetricRatingBuckets(fcp, 1800.0, 3000.0);
    Analysis.MetricRatingBuckets(lcp, 2500.0, 4000.0);
  }

  // ---------------------------------------------------------------------------
  // Executive summary and scores table
  // ---------------------------------------------------------------------------

  /** The averages of the main site; `{}` when the analysis stage left no
      aggregated record or no main site. */
  function MainAverages(agg: Option<Analysis.Aggregated>): Analysis.Averages {
    if agg.Some? then Analysis.AveragesOf(agg.value.mainSite) else Analysis.Averages(None, None, None)
  }

  /** `_create_executive_summary`: the overall line, the ranking line when
      the ranking text is non-empty, and the key-metrics line; `N/A` stands
      in for a missing summary. */
  function ExecutiveSummary(agg: Option<Analysis.Aggregated>): (r: seq<string>)
    ensures |r| == 2 || |r| == 3
    ensures r[0] == "<b>Overall Performance:</b> " + (if agg.Some? then agg.value.summary.overall else "N/A")
    ensures r[|r| - 1] == "<b>Key Metrics:</b> " + (if agg.Some? then agg.value.summary.keyMetrics else "N/A")
    ensures |r| == 3 <==> agg.Some? && agg.value.summary.ranking != ""
  {
    match agg
    case None => ["<b>Overall Performance:</b> N/A", "<b>Key Metrics:</b> N/A"]
    case Some(a) =>
      ["<b>Overall Performance:</b> " + a.summary.overall] +
      (if a.summary.ranking != "" then ["<b>Competitive Ranking:</b> " + a.summary.ranking] else []) +
      ["<b>Key Metrics:</b> " + a.summary.keyMetrics]
  }

  /** Every summary the analysis stage produces carries a ranking, so the
      ranking line is shown whenever there is an aggregated record. */
  lemma RankingLineShown(a: Analysis.Aggregated, lighthouse: seq<ToolRecord>, webpagetest: seq<ToolRecord>,
                         gtmetrix: seq<ToolRecord>)
    requires a == Analysis.Aggregate(lighthouse, webpagetest, gtmetrix)
    ensures |ExecutiveSummary(Some(a))| == 3
  {
    assert a.summary.ranking[0] == 'R';
  }

  const ScoresHeader: Row := ["Metric", "Score", "Rating"]

  function OverallRow(perf: real): Row {
    ["Overall Performance", Text.Fixed1(perf) + "/100", ScoreRating(perf)]
  }

  function FcpRow(fcp: real): Row {
    ["First Contentful Paint (FCP)", Text.Fixed0(fcp) + "ms", FcpRating(fcp)]
  }

  function LcpRow(lcp: real): Row {
    ["Largest Contentful Paint (LCP)", Text.Fixed0(lcp) + "ms", LcpRating(lcp)]
  }

  /** `_create_performance_scores`: the header and the overall row always
      (a missing average reads as 0), then an FCP row when the average FCP is
      nonzero and an LCP row when the average LCP is nonzero. */
  function ScoresTable(agg: Option<Analysis.Aggregated>): (r: seq<Row>)
    ensures var a := MainAverages(agg);
      var fcp, lcp := a.avgFcp.GetOr(0.0), a.avgLcp.GetOr(0.0);
      |r| == 2 + (if fcp != 0.0 then 1 else 0) + (if lcp != 0.0 then 1 else 0) &&
      r[0] == ScoresHeader && r[1] == OverallRow(a.avgPerformanceScore.GetOr(0.0)) &&
      (FcpRow(fcp) in r <==> fcp != 0.0) && (LcpRow(lcp) in r <==> lcp != 0.0) &&
      (fcp != 0.0 ==> r[2] == FcpRow(fcp)) && (lcp != 0.0 ==> r[|r| - 1] == LcpRow(lcp))
  {
    var a := MainAverages(agg);
    var fcp, lcp := a.avgFcp.GetOr(0.0), a.avgLcp.GetOr(0.0);
    [ScoresHeader, OverallRow(a.avgPerformanceScore.GetOr(0.0))] +
    (if fcp != 0.0 then [FcpRow(fcp)] else []) +
    (if lcp != 0.0 then [LcpRow(lcp)] else [])
  }

  // ---------------------------------------------------------------------------
  // Detailed Lighthouse metrics
  // ---------------------------------------------------------------------------

  function LighthouseRows(m: Metrics): seq<Row> {
    [["Metric", "Value"],
     ["First Contentful Paint", Text.Fixed0(Get(m, "fcp")) + "ms"],
     ["Largest Contentful Paint", Text.Fixed0(Get(m, "lcp")) + "ms"],
     ["Cumulative Layout Shift", Text.Fixed3(Get(m, "cls"))],
     ["Time to First Byte", Text.Fixed0(Get(m, "ttfb")) + "ms"]]
  }

  /** `main_lighthouse.get('success')` on a workflow record: the records the
      workflow stores hold only `url`, `is_main`, `data` and `timestamp`, so
      the lookup finds no `success` key. */
  predicate WrapperSuccess(record: ToolRecord) {
    false
  }

  /** `_create_detailed_metrics` as written: the table needs a top-level
      `success` on the main record. */
  function DetailedMetricsAsWritten(lighthouse: seq<ToolRecord>): Option<seq<Row>> {
    var main := Analysis.FirstMain(lighthouse);
    if main.Some? && WrapperSuccess(main.value) then Some(LighthouseRows(main.value.data.metrics)) else None
  }

  /** As written, the table is missing even when the main site's Lighthouse
      run succeeded. */
  lemma DetailedMetricsNeverShown(lighthouse: seq<ToolRecord>)
    ensures DetailedMetricsAsWritten(lighthouse) == None
  {
  }

  /** The detailed table as intended: shown exactly when the first main
      Lighthouse record's result succeeded, with that result's values. */
  function DetailedMetrics(lighthouse: seq<ToolRecord>): (r: Option<seq<Row>>)
    ensures var main := Analysis.FirstMain(lighthouse);
      (r.Some? <==> main.Some? && main.value.data.success) &&
      (r.Some? ==> |r.value| == 5 && r.value == LighthouseRows(main.value.data.metrics))
  {
    var main := Analysis.FirstMain(lighthouse);
    if main.Some? && main.value.data.success then Some(LighthouseRows(main.value.data.metrics)) else None
  }

  /** The two differ on every list whose main record succeeded. */
  lemma DetailedMetricsDiscrepancy(lighthouse: seq<ToolRecord>)
    requires exists i :: 0 <= i < |lighthouse| && lighthouse[i].isMain && lighthouse[i].data.success &&
                         forall j :: 0 <= j < i ==> !lighthouse[j].isMain
    ensures DetailedMetricsAsWritten(lighthouse) == None && DetailedMetrics(lighthouse).Some?
  {
    var i :| 0 <= i < |lighthouse| && lighthouse[i].isMain && lighthouse[i].data.success &&
             forall j :: 0 <= j < i ==> !lighthouse[j].isMain;
    FirstMainAt(lighthouse, i);
  }

  lemma {:induction false} FirstMainAt(lighthouse: seq<ToolRecord>, i: nat)
    requires i < |lighthouse| && lighthouse[i].isMain && forall j :: 0 <= j < i ==> !lighthouse[j].isMain
    ensures Analysis.FirstMain(lighthouse) == Some(lighthouse[i])
    decreases i
  {
    if i > 0 {
      FirstMainAt(lighthouse[1..], i - 1);
    }
  }

  // ---------------------------------------------------------------------------
  // Competitor comparison
  // ---------------------------------------------------------------------------

  /** The URL without its scheme. */
  function Unschemed(url: string): string {
    Text.Replace(Text.Replace(url, "https://", ""), "http://", "")
  }

  /** The competitor URL as shown in the table: without scheme, and cut to 27
      characters plus "..." when longer than 30. */
  function DisplayUrl(url: string): string {
    var u := Unschemed(url);
    if |u| > 30 then u[..27] + "..." else u
  }

  /** A shown URL has at most 30 characters: the URL without its scheme when
      that fits, otherwise its first 27 characters followed by "...". */
  lemma DisplayUrlShape(url: string)
    ensures var r := DisplayUrl(url);
      |r| <= 30 && Text.Take(r, 27) <= Unschemed(url) &&
      (|Unschemed(url)| <= 30 ==> r == Unschemed(url)) &&
      (|Unschemed(url)| > 30 ==> |r| == 30 && r[27..] == "...")
  {
  }

  /** A short https URL whose rest holds no further scheme is shown as that
      rest. */
  lemma DisplayUrlOfHttps(rest: string)
    requires Text.Absent(rest, "https://") && Text.Absent(rest, "http://") && |rest| <= 30
    ensures DisplayUrl("https://" + rest) == rest
  {
    Text.ReplaceLeading("https://", rest, "");
    Text.ReplaceAbsent(rest, "https://", "");
    Text.ReplaceAbsent(rest, "http://", "");
    assert Text.Replace("https://" + rest, "https://", "") == rest;
    assert Unschemed("https://" + rest) == rest;
  }

  /** The status cell of a competitor row. */
  function StatusLabel(compPerf: real, mainPerf: real): (r: string)
    ensures r == "Better" <==> compPerf < mainPerf
    ensures r == "Worse" <==> compPerf > mainPerf
    ensures r == "Equal" <==> compPerf == mainPerf
  {
    if compPerf < mainPerf then "Better" else if compPerf > mainPerf then "Worse" else "Equal"
  }

  /** A Better label marks exactly the competitors the comparison lists as
      beaten; Worse and Equal both mark competitors it lists as beating the
      main site. */
  lemma StatusLabelMatchesComparison(mainPerf: real, c: Analysis.Competitor)
    ensures StatusLabel(Analysis.CompetitorScore(c), mainPerf) == "Better" <==>
            Analysis.BetterThan(mainPerf, [c]) != []
    ensures StatusLabel(Analysis.CompetitorScore(c), mainPerf) != "Better" <==>
            Analysis.WorseThan(mainPerf, [c]) != []
  {
    assert [c][..0] == [];
  }

  function NumberOrNA(x: real): string {
    if x != 0.0 then Text.Fixed0(x) else "N/A"
  }

  const ComparisonHeader: Row := ["Website", "Performance Score", "FCP (ms)", "LCP (ms)", "Status"]

  function MainRow(a: Analysis.Averages): Row {
    ["Your Site", Text.Fixed1(a.avgPerformanceScore.GetOr(0.0)), NumberOrNA(a.avgFcp.GetOr(0.0)),
     NumberOrNA(a.avgLcp.GetOr(0.0)), "Main"]
  }

  function CompetitorRow(c: Analysis.Competitor, mainPerf: real): (r: Row)
    ensures |r| == 5 && r[4] in {"Better", "Worse", "Equal"}
  {
    var a := c.site.averages;
    var perf := a.avgPerformanceScore.GetOr(0.0);
    [DisplayUrl(c.url), Text.Fixed1(perf), NumberOrNA(a.avgFcp.GetOr(0.0)), NumberOrNA(a.avgLcp.GetOr(0.0)),
     StatusLabel(perf, mainPerf)]
  }

  /** `f` applied to each element, in order. */
  function MapRows<T>(f: T -> Row, xs: seq<T>): seq<Row>
    decreases |xs|
  {
    if xs == [] then [] else MapRows(f, xs[..|xs| - 1]) + [f(xs[|xs| - 1])]
  }

  lemma {:induction false} MapRowsAt<T>(f: T -> Row, xs: seq<T>)
    ensures |MapRows(f, xs)| == |xs|
    ensures forall i :: 0 <= i < |xs| ==> MapRows(f, xs)[i] == f(xs[i])
    decreases |xs|
  {
    if xs != [] {
      MapRowsAt(f, xs[..|xs| - 1]);
    }
  }

  function RowFor(mainPerf: real): Analysis.Competitor -> Row {
    c => CompetitorRow(c, mainPerf)
  }

  /** One row per competitor, in order. */
  function CompetitorRows(cs: seq<Analysis.Competitor>, mainPerf: real): seq<Row> {
    MapRows(RowFor(mainPerf), cs)
  }

  lemma CompetitorRowsAt(cs: seq<Analysis.Competitor>, mainPerf: real)
    ensures |CompetitorRows(cs, mainPerf)| == |cs|
    ensures forall i :: 0 <= i < |cs| ==> CompetitorRows(cs, mainPerf)[i] == CompetitorRow(cs[i], mainPerf)
  {
    MapRowsAt(RowFor(mainPerf), cs);
  }

  /** The rows of the comparison table: the header, the main site, then one
      row per competitor in order. */
  function ComparisonRows(a: Analysis.Averages, competitors: seq<Analysis.Competitor>): seq<Row> {
    [ComparisonHeader, MainRow(a)] + CompetitorRows(competitors, a.avgPerformanceScore.GetOr(0.0))
  }

  /** Two rows more than competitors, each of the five cells, row `i + 2`
      for competitor `i`. */
  lemma ComparisonRowsShape(a: Analysis.Averages, competitors: seq<Analysis.Competitor>)
    ensures var rows := ComparisonRows(a, competitors);
      |rows| == |competitors| + 2 &&
      rows[0] == ComparisonHeader && rows[1] == MainRow(a) &&
      (forall i :: 0 <= i < |competitors| ==>
         rows[i + 2] == CompetitorRow(competitors[i], a.avgPerformanceScore.GetOr(0.0))) &&
      (forall i :: 0 <= i < |rows| ==> |rows[i]| == 5)
  {
    var mainPerf := a.avgPerformanceScore.GetOr(0.0);
    var rows := ComparisonRows(a, competitors);
    CompetitorRowsAt(competitors, mainPerf);
    forall i | 0 <= i < |rows|
      ensures |rows[i]| == 5
    {
      if i >= 2 {
        assert rows[i] == CompetitorRow(competitors[i - 2], mainPerf);
      }
    }
  }

  /** The table loop of `_create_competitor_comparison`. */
  method ComparisonTable(a: Analysis.Averages, competitors: seq<Analysis.Competitor>) returns (rows: seq<Row>)
    ensures rows == ComparisonRows(a, competitors)
  {
    var mainPerf := a.avgPerformanceScore.GetOr(0.0);
    rows := [ComparisonHeader, MainRow(a)];
    for i := 0 to |competitors|
      invariant rows == [ComparisonHeader, MainRow(a)] + CompetitorRows(competitors[..i], mainPerf)
    {
      assert competitors[..i + 1][..i] == competitors[..i] && competitors[..i + 1][i] == competitors[i];
      rows := rows + [CompetitorRow(competitors[i], mainPerf)];
    }
    assert competitors[..|competitors|] == competitors;
  }

  datatype StyleKind = Background | TextColour

  /** One status-cell style command: column 4 of `row`. */
  datatype StatusStyle = StatusStyle(kind: StyleKind, row: nat, colour: string)

  const WorseBackground: string := "#fee2e2"
  const WorseText: string := "#991b1b"
  const BetterBackground: string := "#dcfce7"
  const BetterText: string := "#166534"

  function StylesFor(row: nat, status: string): seq<StatusStyle> {
    if status == "Worse" then [StatusStyle(Background, row, WorseBackground), StatusStyle(TextColour, row, WorseText)]
    else if status == "Better" then [StatusStyle(Background, row, BetterBackground), StatusStyle(TextColour, row, BetterText)]
    else []
  }

  /** The status styles for the table rows from 2 up to `n`. */
  function StylesUpTo(rows: seq<Row>, n: nat): seq<StatusStyle>
    requires n <= |rows|
    requires forall i :: 2 <= i < |rows| ==> |rows[i]| == 5
    decreases n
  {
    if n <= 2 then [] else StylesUpTo(rows, n - 1) + StylesFor(n - 1, rows[n - 1][4])
  }

  /** The colouring loop over the competitor rows. */
  method StatusStyles(rows: seq<Row>) returns (styles: seq<StatusStyle>)
    requires forall i :: 2 <= i < |rows| ==> |rows[i]| == 5
    ensures styles == StylesUpTo(rows, |rows|)
  {
    styles := [];
    if |rows| <= 2 {
      return;
    }
    for i := 2 to |rows|
      invariant styles == StylesUpTo(rows, i)
    {
      styles := styles + StylesFor(i, rows[i][4]);
    }
  }

  /** Every style colours the status cell of a competitor row labelled Worse
      or Better. */
  lemma {:induction false} StylesOnlyLabelled(rows: seq<Row>, n: nat)
    requires n <= |rows|
    requires forall i :: 2 <= i < |rows| ==> |rows[i]| == 5
    ensures forall s :: s in StylesUpTo(rows, n) ==>
      2 <= s.row < n && rows[s.row][4] in {"Worse", "Better"}
    decreases n
  {
    if n > 2 {
      StylesOnlyLabelled(rows, n - 1);
      var prev, last := StylesUpTo(rows, n - 1), StylesFor(n - 1, rows[n - 1][4]);
      assert StylesUpTo(rows, n) == prev + last;
      assert forall s :: s in last ==> s.row == n - 1 && rows[n - 1][4] in {"Worse", "Better"};
    }
  }

  /** Every competitor row labelled Worse or Better gets its background and
      its text colour. */
  lemma {:induction false} LabelledRowsStyled(rows: seq<Row>, n: nat)
    requires n <= |rows|
    requires forall i :: 2 <= i < |rows| ==> |rows[i]| == 5
    ensures forall i :: 2 <= i < n && rows[i][4] == "Worse" ==>
      StatusStyle(Background, i, WorseBackground) in StylesUpTo(rows, n) &&
      StatusStyle(TextColour, i, WorseText) in StylesUpTo(rows, n)
    ensures forall i :: 2 <= i < n && rows[i][4] == "Better" ==>
      StatusStyle(Background, i, BetterBackground) in StylesUpTo(rows, n) &&
      StatusStyle(TextColour, i, BetterText) in StylesUpTo(rows, n)
    decreases n
  {
    if n > 2 {
      LabelledRowsStyled(rows, n - 1);
      var prev, last := StylesUpTo(rows, n - 1), StylesFor(n - 1, rows[n - 1][4]);
      assert StylesUpTo(rows, n) == prev + last;
    }
  }

  /** Only competitor rows labelled Worse or Better are coloured, and each
      of those gets both its background and its text colour. */
  lemma {:induction false} StylesExactlyLabelled(rows: seq<Row>, n: nat)
    requires n <= |rows|
    requires forall i :: 2 <= i < |rows| ==> |rows[i]| == 5
    ensures forall s :: s in StylesUpTo(rows, n) ==>
      2 <= s.row < n && rows[s.row][4] in {"Worse", "Better"}
    ensures forall i :: 2 <= i < n && rows[i][4] == "Worse" ==>
      StatusStyle(Background, i, WorseBackground) in StylesUpTo(rows, n) &&
      StatusStyle(TextColour, i, WorseText) in StylesUpTo(rows, n)
    ensures forall i :: 2 <= i < n && rows[i][4] == "Better" ==>
      StatusStyle(Background, i, BetterBackground) in StylesUpTo(rows, n) &&
      StatusStyle(TextColour, i, BetterText) in StylesUpTo(rows, n)
  {
    StylesOnlyLabelled(rows, n);
    LabelledRowsStyled(rows, n);
  }

  /** The competitor section: the rank line, and when there are competitor
      records the table, its status styles and the better/worse count line. */
  datatype ComparisonSection = ComparisonSection(
    rankLine: string, table: seq<Row>, styles: seq<StatusStyle>, countsLine: Option<string>)

  function OrNA(n: Option<int>): string {
    if n.Some? then Text.IntToString(n.value) else "N/A"
  }

  function ComparisonsOf(agg: Option<Analysis.Aggregated>): Option<Analysis.Comparisons> {
    if agg.Some? then agg.value.comparisons else None
  }

  function RankLine(c: Option<Analysis.Comparisons>): string {
    var rank := if c.Some? then Some(c.value.rank) else None;
    var total := if c.Some? then Some(c.value.totalSites) else None;
    "Your site ranks <b>#" + OrNA(rank) + "</b> out of <b>" + OrNA(total) + "</b> analyzed sites."
  }

  function CountsLine(c: Option<Analysis.Comparisons>): string {
    var better := if c.Some? then |c.value.betterThan| else 0;
    var worse := if c.Some? then |c.value.worseThan| else 0;
    "Your site performs <b>better</b> than " + Text.IntToString(better) +
    " competitor(s) and <b>worse</b> than " + Text.IntToString(worse) + " competitor(s)."
  }

  /** What the comparison section holds: the rank line, and with competitors
      the comparison rows, their status styles and the counts line. */
  function ComparisonSectionOf(agg: Option<Analysis.Aggregated>): ComparisonSection {
    var cs := if agg.Some? then agg.value.competitors else [];
    if cs == [] then ComparisonSection(RankLine(ComparisonsOf(agg)), [], [], None)
    else
      var rows := ComparisonRows(MainAverages(agg), cs);
      ComparisonRowsShape(MainAverages(agg), cs);
      ComparisonSection(RankLine(ComparisonsOf(agg)), rows, StylesUpTo(rows, |rows|), Some(CountsLine(ComparisonsOf(agg))))
  }

  /** `_create_competitor_comparison`. */
  method CompetitorComparison(agg: Option<Analysis.Aggregated>) returns (s: ComparisonSection)
    ensures s == ComparisonSectionOf(agg)
    ensures s.rankLine == RankLine(ComparisonsOf(agg))
    ensures var cs := if agg.Some? then agg.value.competitors else [];
      (s.countsLine.Some? <==> cs != []) &&
      (cs == [] ==> s.table == [] && s.styles == []) &&
      (cs != [] ==> |s.table| == |cs| + 2 && s.table[1] == MainRow(MainAverages(agg)) &&
                    (forall i :: 0 <= i < |s.table| ==> |s.table[i]| == 5) &&
                    s.styles == StylesUpTo(s.table, |s.table|) &&
                    s.countsLine == Some(CountsLine(ComparisonsOf(agg))))
  {
    var comparisons := ComparisonsOf(agg);
    var competitors := if agg.Some? then agg.value.competitors else [];
    if competitors == [] {
      return ComparisonSection(RankLine(comparisons), [], [], None);
    }
    var rows := ComparisonTable(MainAverages(agg), competitors);
    ComparisonRowsShape(MainAverages(agg), competitors);
    var styles := StatusStyles(rows);
    s := ComparisonSection(RankLine(comparisons), rows, styles, Some(CountsLine(comparisons)));
  }

  // ---------------------------------------------------------------------------
  // Recommendations
  // ---------------------------------------------------------------------------

  datatype Colour = Red | Orange | Green | Grey

  /** The badge colour of a priority. */
  function PriorityColour(priority: string): (c: Colour)
    ensures c == Red <==> priority == "high"
    ensures c == Orange <==> priority == "medium"
    ensures c == Green <==> priority == "low"
    ensures c == Grey <==> priority !in {"high", "medium", "low"}
  {
    if priority == "high" then Red
    else if priority == "medium" then Orange
    else if priority == "low" then Green
    else Grey
  }

  /** One rendered recommendation. */
  datatype Entry = Entry(heading: string, badge: string, colour: Colour, category: string, description: string,
                         impact: Option<string>)

  /** The heading `"{i}. {title}"`. */
  function Heading(number: nat, title: string): string {
    Text.NatToString(number) + ". " + title
  }

  /** Distinct numbers give distinct headings, whatever the titles. */
  lemma HeadingsDistinct(m: nat, n: nat, t1: string, t2: string)
    requires m != n
    ensures Heading(m, t1) != Heading(n, t2)
  {
    if Heading(m, t1) == Heading(n, t2) {
      assert Text.NatToString(m) + (". " + t1) == Heading(m, t1);
      assert Text.NatToString(n) + (". " + t2) == Heading(n, t2);
      Text.NumberPrefixInjective(m, n, ". " + t1, ". " + t2);
    }
  }

  /** The `number`-th entry: priority defaults to medium, title to
      "Recommendation", category to "General" and description to
      "No description available."; an empty impact shows no impact line. */
  function EntryFor(number: nat, rec: Analysis.Recommendation): (e: Entry)
    ensures var priority := rec.priority.GetOr("medium");
      e.colour == PriorityColour(priority) && e.badge == "[" + Text.Upper(priority) + "]"
    ensures e.heading == Heading(number, rec.title.GetOr("Recommendation"))
    ensures e.category == rec.category.GetOr("General")
    ensures e.description == rec.description.GetOr("No description available.")
    ensures e.impact.Some? <==> rec.impact.Some? && rec.impact.value != ""
    ensures e.impact.Some? ==> e.impact == rec.impact
  {
    var priority := rec.priority.GetOr("medium");
    Entry(Heading(number, rec.title.GetOr("Recommendation")), "[" + Text.Upper(priority) + "]",
          PriorityColour(priority), rec.category.GetOr("General"), rec.description.GetOr("No description available."),
          if rec.impact.Some? && rec.impact.value != "" then rec.impact else None)
  }

  /** `_create_recommendations_section`: one entry per recommendation, in
      order, numbered from 1. */
  method RecommendationsSection(recs: seq<Analysis.Recommendation>) returns (entries: seq<Entry>)
    ensures |entries| == |recs|
    ensures forall i :: 0 <= i < |recs| ==> entries[i] == EntryFor(i + 1, recs[i])
  {
    entries := [];
    for i := 0 to |recs|
      invariant |entries| == i
      invariant forall j :: 0 <= j < i ==> entries[j] == EntryFor(j + 1, recs[j])
    {
      entries := entries + [EntryFor(i + 1, recs[i])];
    }
  }

  /** No two entries of a section carry the same heading. */
  lemma SectionHeadingsDistinct(recs: seq<Analysis.Recommendation>, entries: seq<Entry>, i: nat, j: nat)
    requires |entries| == |recs| && forall k :: 0 <= k < |recs| ==> entries[k] == EntryFor(k + 1, recs[k])
    requires i < j < |recs|
    ensures entries[i].heading != entries[j].heading
  {
    HeadingsDistinct(i + 1, j + 1, recs[i].title.GetOr("Recommendation"), recs[j].title.GetOr("Recommendation"));
  }

  // ---------------------------------------------------------------------------
  // Screenshots and the report result
  // ---------------------------------------------------------------------------

  /** `_create_screenshots_section`: the desktop image of the first main
      capture record, when that capture succeeded, names a desktop file, and
      the file exists (`desktopExists`). */
  function DesktopShot(shots: seq<UrlRecord<Screenshot.CaptureResult>>, desktopExists: bool): (r: Option<string>)
    ensures var main := Analysis.FirstMain(shots);
      r.Some? <==> main.Some? && main.value.data.success && "desktop" in main.value.data.screenshots &&
                   main.value.data.screenshots["desktop"] != "" && desktopExists
    ensures r.Some? ==> r.value == Analysis.FirstMain(shots).value.data.screenshots["desktop"]
  {
    var main := Analysis.FirstMain(shots);
    if main.Some? && main.value.data.success && "desktop" in main.value.data.screenshots &&
       main.value.data.screenshots["desktop"] != "" && desktopExists
    then Some(main.value.data.screenshots["desktop"])
    else None
  }

  /** The content of the document. */
  datatype Document = Document(
    summary: seq<string>,
    scores: seq<Row>,
    detailed: Option<seq<Row>>,
    comparison: Option<ComparisonSection>,
    recommendations: seq<Entry>,
    desktopShot: Option<string>)

  /** The dictionary `generate_report` returns. */
  datatype ReportResult = ReportWritten(pdfPath: string, filename: string, size: nat) | ReportFailed(error: string)

  function ReportFilename(jobId: string, timestamp: string): string {
    "performance_report_" + jobId + "_" + timestamp + ".pdf"
  }

  /** The result record: the written file's path, name and size, or the
      message of the exception that stopped the build. */
  function ReportOutcome(jobId: string, timestamp: string, reportsDir: string, build: CallOutcome<nat>): (r: ReportResult)
    ensures r.ReportWritten? <==> build.Returned?
    ensures r.ReportWritten? ==> (r.filename == ReportFilename(jobId, timestamp) &&
                                  r.pdfPath == reportsDir + "/" + r.filename && r.size == build.value)
    ensures r.ReportFailed? ==> r.error == build.message
  {
    match build
    case Returned(size) => ReportWritten(reportsDir + "/" + ReportFilename(jobId, timestamp), ReportFilename(jobId, timestamp), size)
    case Raised(message) => ReportFailed(message)
  }

  /** `generate_report`. `timestamp` is the formatted clock reading and
      `build` what writing the PDF did: its size on success, or the message
      of the exception. A failure is returned, never raised. */
  method GenerateReport(jobId: string, timestamp: string, reportsDir: string, competitorUrls: seq<string>,
                        lighthouse: seq<ToolRecord>, shots: seq<UrlRecord<Screenshot.CaptureResult>>,
                        agg: Option<Analysis.Aggregated>, recs: seq<Analysis.Recommendation>,
                        desktopExists: bool, build: CallOutcome<nat>)
    returns (doc: Document, r: ReportResult)
    ensures r == ReportOutcome(jobId, timestamp, reportsDir, build)
    ensures doc.summary == ExecutiveSummary(agg) && doc.scores == ScoresTable(agg)
    ensures doc.detailed == DetailedMetrics(lighthouse)
    ensures doc.comparison.Some? <==> competitorUrls != []
    ensures doc.comparison.Some? ==> doc.comparison.value.rankLine == RankLine(ComparisonsOf(agg))
    ensures doc.comparison.Some? ==> doc.comparison.value == ComparisonSectionOf(agg)
    ensures |doc.recommendations| == |recs| &&
      forall i :: 0 <= i < |recs| ==> doc.recommendations[i] == EntryFor(i + 1, recs[i])
    ensures doc.desktopShot == DesktopShot(shots, desktopExists)
  {
    var comparison: Option<ComparisonSection> := None;
    if competitorUrls != [] {
      var section := CompetitorComparison(agg);
      comparison := Some(section);
    }
    var entries := RecommendationsSection(recs);
    doc := Document(ExecutiveSummary(agg), ScoresTable(agg), DetailedMetrics(lighthouse), comparison, entries,
                    DesktopShot(shots, desktopExists));
    r := ReportOutcome(jobId, timestamp, reportsDir, build);
  }
}
