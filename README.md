# Website performance analyser: a Dafny model of its backend core

The analyser takes the URL of a main site and a list of competitor URLs and runs
a fixed pipeline over them:

1. a Lighthouse-style browser run measures each site's Web Vitals;
2. screenshots are captured;
3. an analysis agent aggregates the per-tool measurements into averages, a
   ranking and rating texts, and recommendations;
4. a report agent lays these out in a PDF.

A FastAPI job table drives the pipeline; a LangGraph graph of five nodes runs
it. Two more tool agents, for GTmetrix and WebPageTest, and an example MCP tool
server complete the backend.

This project models the decision logic of that backend in Dafny and proves
what it promises:

- the sub-score curves and their bounds;
- the suggestion rules;
- which tool blocks contribute to a site's averages, and how;
- how competitors are ranked, with ties counted against the main site;
- the rating buckets and the text they produce;
- the row selection of the report tables;
- the per-URL "one result or one error" loops of the workflow;
- the state the workflow nodes leave behind;
- the gates of the job registry;
- the MCP tool table and its dispatch.

One module per source file: `Config` (config.dfy), `Lighthouse` (lighthouse.dfy), `Gtmetrix` (gtmetrix.dfy), `WebPageTest` (webpagetest.dfy), `Screenshot` (screenshot.dfy), `Analysis` (analysis.dfy), `Report` (report.dfy), `Workflow` (workflow.dfy), `Registry` (registry.dfy), `Mcp` (mcp.dfy).

Four helper modules hold what several of them share:

- `Wrappers`: `Option`, `Result`, and `CallOutcome`. A `CallOutcome` is a call's outcome: it returned a value or raised an exception with a message.
- `Measurements`: the shape of a tool result dictionary and the per-URL record, the `d.get(k, 0)` lookup, and the conditional-append suggestion rules.
- `Text`: the string functions of Python used here: `replace`, `split`, `strip`, `lower`, `upper`, `join`, slicing, integer and fixed-point formatting.
- `Base64`: UTF-8 and the base 64 encoding of section 4 of RFC 4648.

## Modelling conventions

- Metric values are `real`.
- A dictionary lookup with a default of 0 is `Measurements.Get`.
- Python's numeric truthiness (`if fcp:`) is `!= 0`.
- A nested dictionary the source builds is a datatype. Keys it may leave out are `Option` fields.
- Everything outside the process is an input to the model. This covers the browser, HTTP, the language models, PDF building, the clock, the file system and `uuid`:
  - the outcome of a call is a `CallOutcome`;
  - `polls: seq<Poll>` is what each poll would observe;
  - a timestamp is a string;
  - whether a file exists is a `bool`.
- Code that changes state step by step is imperative Dafny:
  - The workflow state is the class `Workflow.AnalysisState`. Its node methods each promise `View() == <node>Effect(old(View()), …)`.
  - The job table is the class `Registry.JobRegistry` over a `map`.
  - The MCP server is the class `Mcp.LighthouseMcpServer`, whose tool list is filled by appends.
  - The loops of the source are methods whose loops carry the invariants: the poll loops, the competitor loop of `aggregate_metrics`, the comparison loop, the per-URL loops of the workflow, the report table builders and `capture_with_dimensions`.
  - Each of these methods is proved equal to a specification function. The properties are proved as lemmas about that function.

## Where the code and its description disagree (the model follows the code)

- **Ties.**
  - In `_generate_comparisons`, a competitor whose score equals the main site's goes to `worse_than`, and it increments the rank. So ties count against the main site (`Analysis.TieCountsAgainstMain`).
  - The report's table labels the same competitor "Equal". Its counts line still counts it as "worse".
- **`avg_lcp`.** It is present whenever a Lighthouse block exists, even when that block's `lcp` is 0. It does not depend on any tool "reporting" a value (`Analysis.AverageLcp`).
- **The detailed Lighthouse table** of the report is never shown for records made by the workflow (see Findings).
- **Fields missing from the initial state.** The workflow's initial state (`main.py`) sets neither `errors` nor the result lists. Declared with the `operator.add` reducer, they start as empty lists, and the model starts them empty.

## Model

| member | source | states |
|---|---|---|
| `Config.GetEnv` | backend/app/config.py:28 | `os.getenv` finds a value iff some variable has exactly that name, and the value is that variable's |
| `Config.FieldValueSpec` | backend/app/config.py:51-53 | a field is found iff some variable's name matches it in any letter case, and takes the value of the last such variable |
| `Config.ExactNameIsFound` | backend/app/config.py:19-39 | a variable the class body finds under its exact name is also found by the case-insensitive read, so an unfound field falls back to the literal default |
| `Config.ParseBool` | backend/app/config.py:35 | a boolean field is true exactly for 1, on, t, true, y, yes and false exactly for 0, off, f, false, n, no, in any ASCII letter case; any other text fails validation |
| `Config.TracingFlag` | backend/app/config.py:35 | tracing is off when the variable is unset, and otherwise is the boolean its text reads as, or a validation failure |
| `Config.TracingWords` | backend/app/config.py:35 | "1", "yes", "On" and "TRUE" turn tracing on, "no" and "False" turn it off, "maybe" and the empty text are rejected |
| `Config.ParsePort` | backend/app/config.py:28 | a port is read exactly from a non-empty string of decimal digits |
| `Config.EmptyEnvironmentDefaults` | backend/app/config.py:19-39 | with nothing set: origins http://localhost:3000, host 0.0.0.0, port 8000, reports ./reports, screenshots ./screenshots, redis redis://localhost:6379/0, tracing off, every API key empty |
| `Config.NamesIgnoreCase` | backend/app/config.py:51-53 | a lower-case `openai_api_key` sets the key and a mixed-case tracing variable set to "yes" turns tracing on |
| `Config.BadValuesFail` | backend/app/config.py:28-35 | a tracing value that is no boolean, or a PORT that is no number, gives no settings at all |
| `Config.CorsOriginsList` | backend/app/config.py:47-49 | one origin per comma-separated piece (number of commas + 1, never empty), each piece stripped of surrounding whitespace, none containing a comma |
| `Config.SingleOrigin` | backend/app/config.py:47-49 | an origin without commas or surrounding space, such as the default, is the whole list |
| `Text.SplitJoin` | backend/app/config.py:49 | the pieces of `split` joined with the separator give back the original text |
| `Text.Strip` | backend/app/config.py:49 | `strip` returns a contiguous slice with no whitespace at either end, and leaves whitespace-free text unchanged |
| `Text.RoundHalfEven` | backend/app/agents/analysis_agent.py:267 | the rounding of the fixed-point formats: within 0.5 of the value, ties to even |
| `Base64.RoundTrip` | backend/app/agents/gtmetrix_agent.py:66 | decoding the base 64 encoding gives back every byte string |
| `Base64.EncodeLength` | backend/app/agents/gtmetrix_agent.py:66 | four characters per started group of three bytes |
| `Base64.Utf8Ascii` | backend/app/agents/gtmetrix_agent.py:66 | `encode()` of ASCII text is its code points, one byte each |
| `Gtmetrix.AuthHeader` | backend/app/agents/gtmetrix_agent.py:63-67 | the header starts with "Basic " and the rest decodes to the UTF-8 bytes of username:key |
| `Measurements.AboveThreshold` | backend/app/agents/lighthouse_agent.py:229-242 | at most one suggestion for the metric: high strictly above the upper threshold, medium strictly above the lower one, none otherwise |
| `Measurements.BelowThreshold` | backend/app/agents/gtmetrix_agent.py:190-203 | at most one suggestion for the score: high strictly below the lower threshold, medium below the upper one, none otherwise |
| `Measurements.Exceeds` | backend/app/agents/lighthouse_agent.py:289-296 | a single suggestion of the given severity exactly when the value strictly exceeds the limit |
| `Measurements.FlattenInOrder` | backend/app/agents/lighthouse_agent.py:224-298 | appending at most one suggestion per rule yields at most one per rule, in the order of the rules |
| `Measurements.PollBudget` | backend/app/agents/gtmetrix_agent.py:101 | the number of polls n of `range(max_wait // 5)`: 5n <= max_wait < 5(n+1), and none for a negative wait |
| `Measurements.ProjectValues` | backend/app/agents/gtmetrix_agent.py:128-152 | projecting attributes under new names gives each name its attribute's value, 0 when absent |
| `Lighthouse.PiecewiseBounds` | backend/app/agents/lighthouse_agent.py:177-211 | every sub-score lies in [0, 100] for any measurement |
| `Lighthouse.PiecewiseMonotone` | backend/app/agents/lighthouse_agent.py:177-211 | a larger measurement never earns a higher sub-score |
| `Lighthouse.PiecewiseContinuous` | backend/app/agents/lighthouse_agent.py:177-211 | the pieces meet: 100 at the lower threshold, 50 at the upper threshold from both sides |
| `Lighthouse.PiecewiseFloor` | backend/app/agents/lighthouse_agent.py:177-211 | a sub-score is 0 exactly from twice its upper threshold on |
| `Lighthouse.FcpScore` | backend/app/agents/lighthouse_agent.py:178-184 | the FCP sub-score is the common curve with thresholds 1800 and 3000 ms, within [0, 100] |
| `Lighthouse.LcpScore` | backend/app/agents/lighthouse_agent.py:187-193 | the LCP sub-score is the common curve with thresholds 2500 and 4000 ms, within [0, 100] |
| `Lighthouse.ClsScore` | backend/app/agents/lighthouse_agent.py:196-202 | the CLS sub-score is the common curve with thresholds 0.1 and 0.25, within [0, 100] |
| `Lighthouse.TtfbScore` | backend/app/agents/lighthouse_agent.py:205-211 | the TTFB sub-score is the common curve with thresholds 800 and 1800 ms, within [0, 100] |
| `Lighthouse.CalculateScores` | backend/app/agents/lighthouse_agent.py:172-222 | exactly the five score keys; each sub-score from its metric (missing reads as 0); the overall score is the 0.1/0.25/0.15/0.1 weighting plus 20, so it lies in [20, 80] |
| `Lighthouse.FastPageScore` | backend/app/agents/lighthouse_agent.py:213-220 | a page at its best on every metric scores 80 |
| `Lighthouse.Suggestions` | backend/app/agents/lighthouse_agent.py:224-298 | at most five suggestions, in the order FCP, LCP, CLS, TTFB, resource size, each high or medium |
| `Lighthouse.SuggestionsPerMetric` | backend/app/agents/lighthouse_agent.py:229-287 | for each of FCP, LCP, CLS and TTFB: high iff above the upper threshold, medium iff above the lower and not the upper |
| `Lighthouse.SuggestionsResourceLast` | backend/app/agents/lighthouse_agent.py:289-296 | a resource-size suggestion appears iff the total size exceeds 3000000, and then it is the last one |
| `Lighthouse.Analyze` | backend/app/agents/lighthouse_agent.py:27-80 | success iff the browser run returned; then metrics, their scores and suggestions; on failure the same URL, empty metrics, scores and suggestions, and the exception text |
| `Gtmetrix.Fallback` | backend/app/agents/gtmetrix_agent.py:163-183 | flagged successful and fallback, the three zero metrics, no scores, one informational suggestion and the configuration message |
| `Gtmetrix.ParsedFields` | backend/app/agents/gtmetrix_agent.py:122-161 | the 16 metrics and 4 scores, each from its named attribute with default 0; unreadable attributes give empty dictionaries |
| `Gtmetrix.PerformanceScoreReportedTwice` | backend/app/agents/gtmetrix_agent.py:128-152 | the `performance` score equals the `performanceScore` metric |
| `Gtmetrix.WaitDecidedByFirstFinal` | backend/app/agents/gtmetrix_agent.py:101-119 | the first poll that raised or reported completed or error decides the outcome |
| `Gtmetrix.WaitTimeout` | backend/app/agents/gtmetrix_agent.py:101-120 | polling times out exactly when every poll of the budget is still pending |
| `Gtmetrix.WaitForResults` | backend/app/agents/gtmetrix_agent.py:93-120 | at most `max_wait // 5` polls; the verdict of the first final poll, or a timeout after the whole budget |
| `Gtmetrix.Suggestions` | backend/app/agents/gtmetrix_agent.py:185-253 | at most five suggestions in the order performance, structure, page size, load time, requests |
| `Gtmetrix.SuggestionsPerMetric` | backend/app/agents/gtmetrix_agent.py:190-251 | the score rules (<50 high, <75 medium), page size >3000000 high, load time >5000 high and >3000 medium, requests >100 medium, each both ways |
| `Gtmetrix.Analyze` | backend/app/agents/gtmetrix_agent.py:20-61 | the credential gate, submission and polling agree with the specification function over the poll budget |
| `Gtmetrix.AnalyzeGate` | backend/app/agents/gtmetrix_agent.py:32-61 | fallback iff the key or the username is empty; otherwise success iff submission and polling succeed; a failure carries empty dictionaries and an error |
| `WebPageTest.Fallback` | backend/app/agents/webpagetest_agent.py:154-174 | flagged successful and fallback, zero loadTime, TTFB and speedIndex, no scores, one informational suggestion |
| `WebPageTest.SubmitTest` | backend/app/agents/webpagetest_agent.py:62-85 | the test id exactly when the body's status code is 200, otherwise the "Test submission failed" text |
| `WebPageTest.ParsedFields` | backend/app/agents/webpagetest_agent.py:115-152 | the 11 first-view metrics and 4 Lighthouse scores with default 0 and the waterfall URL; an unreadable first view gives empty results |
| `WebPageTest.NoLighthouseZeroScores` | backend/app/agents/webpagetest_agent.py:135-140 | without a `lighthouse` map every score is 0 |
| `WebPageTest.WaitDecidedByFirstFinal` | backend/app/agents/webpagetest_agent.py:91-111 | the first poll with status 200, a status of 400 or more, a missing status or a raised request decides the outcome |
| `WebPageTest.WaitTimeout` | backend/app/agents/webpagetest_agent.py:91-113 | polling times out exactly when every poll reports a status below 400 other than 200 |
| `WebPageTest.WaitForResults` | backend/app/agents/webpagetest_agent.py:87-113 | at most `max_wait // 5` polls; the verdict of the first final poll, or a timeout after the whole budget |
| `WebPageTest.Suggestions` | backend/app/agents/webpagetest_agent.py:176-223 | at most four suggestions in the order speed index, blocking time, page weight, requests |
| `WebPageTest.SuggestionsPerMetric` | backend/app/agents/webpagetest_agent.py:181-221 | speed index >4000 high and >2500 medium, blocking time >300 high, bytes in >2000000 medium, requests >100 medium, each both ways |
| `WebPageTest.Analyze` | backend/app/agents/webpagetest_agent.py:20-60 | the key gate, submission and polling agree with the specification function over the poll budget |
| `WebPageTest.AnalyzeGate` | backend/app/agents/webpagetest_agent.py:30-60 | fallback iff the key is empty; otherwise success iff submission and polling succeed; a failure carries empty dictionaries and an error |
| `Screenshot.SafeUrl` | backend/app/agents/screenshot_agent.py:116 | at most 50 characters, no "/", a prefix of the unschemed URL with "/" turned into "_", and all of it when that is short enough |
| `Screenshot.ViewportFile` | backend/app/agents/screenshot_agent.py:117 | the device name and "_" lead the name, adding at most 55 characters and no "/" |
| `Screenshot.FullPageFile` | backend/app/agents/screenshot_agent.py:147 | "fullpage_" leads the name, at most 63 characters, no "/" |
| `Screenshot.UserAgent` | backend/app/agents/screenshot_agent.py:159-168 | the tablet and mobile strings for those devices, the desktop string for any other name |
| `Screenshot.Capture` | backend/app/agents/screenshot_agent.py:32-90 | success iff the browser work did not raise; then exactly the keys desktop, tablet, mobile and fullpage, each a file in the job's directory; on failure no paths and the error |
| `Screenshot.CaptureWithDimensions` | backend/app/agents/screenshot_agent.py:170-222 | one key per distinct requested name (a repeated name keeps the last path); the first exception ends the run with no paths and that exception's text |
| `Analysis.FirstMainSpec` | backend/app/agents/analysis_agent.py:64-66 | the first record flagged main, absent iff there is none |
| `Analysis.FirstWithUrlSpec` | backend/app/agents/analysis_agent.py:76-78 | the first record with the URL, absent iff there is none |
| `Analysis.CompetitorUrlsSpec` | backend/app/agents/analysis_agent.py:74 | exactly the URLs of the non-main Lighthouse records |
| `Analysis.CompetitorUrlsCount` | backend/app/agents/analysis_agent.py:74 | competitor URLs and main records together account for every Lighthouse record |
| `Analysis.MeanBounds` | backend/app/agents/analysis_agent.py:182-183 | a mean lies within any bounds of its values |
| `Analysis.AverageFcp` | backend/app/agents/analysis_agent.py:159-167 | `avg_fcp` is present iff Lighthouse or WebPageTest has a nonzero FCP, and is the mean of those that do |
| `Analysis.AverageLcp` | backend/app/agents/analysis_agent.py:169-171 | `avg_lcp` is present iff a Lighthouse block exists, and is its LCP even when 0 |
| `Analysis.AveragePerformance` | backend/app/agents/analysis_agent.py:173-183 | the performance average is present iff some tool has a nonzero score, and lies within any bounds of the contributors |
| `Analysis.AveragePerformanceValue` | backend/app/agents/analysis_agent.py:173-183 | the performance average is absent when no tool has a nonzero score, and otherwise is the mean of the nonzero scores: the sum of three over 3.0, of any two over 2.0, or the one score itself |
| `Analysis.SingleSiteBlocks` | backend/app/agents/analysis_agent.py:100-152 | a block iff its record succeeded (and, for WebPageTest and GTmetrix, is not a fallback), its values read with default 0, and the averages over those blocks |
| `Analysis.NonContributingIgnored` | backend/app/agents/analysis_agent.py:110-147 | a failed or fallback record changes nothing: the site is as if that tool had no record |
| `Analysis.ComparisonsPartition` | backend/app/agents/analysis_agent.py:194-221 | every competitor lands in exactly one list; better-than entries score strictly below the main site, worse-than entries at or above it; every difference is nonnegative; each entry keeps its competitor's URL and score |
| `Analysis.RankCountsTies` | backend/app/agents/analysis_agent.py:206-221 | the worse-than list has one entry per competitor scoring at least the main site |
| `Analysis.GenerateComparisons` | backend/app/agents/analysis_agent.py:187-223 | none for no competitors; otherwise total n+1, the two lists partition the n competitors, and the rank is 1 + the number of competitors scoring at least the main site |
| `Analysis.TieCountsAgainstMain` | backend/app/agents/analysis_agent.py:209-221 | a competitor with an equal score puts the main site at rank 2 of 2 with a zero difference |
| `Analysis.PerformanceRatingBuckets` | backend/app/agents/analysis_agent.py:243-253 | Excellent from 90, Good from 75, Fair from 50, Poor below: no gaps, no overlaps, boundaries in the higher bucket |
| `Analysis.MetricRatingBuckets` | backend/app/agents/analysis_agent.py:265-271 | "good" below the first threshold, "needs improvement" below the second, "poor" from it on |
| `Analysis.KeyMetricsShape` | backend/app/agents/analysis_agent.py:255-273 | the FCP part iff the FCP average is nonzero, the LCP part iff the LCP average is nonzero, FCP first and joined by ", ", and "Metrics unavailable" iff neither |
| `Analysis.KeyMetricsExample` | backend/app/agents/analysis_agent.py:255-273 | averages of 2000 and 3000 ms read "FCP: 2000ms (needs improvement), LCP: 3000ms (needs improvement)" |
| `Analysis.RankingText` | backend/app/agents/analysis_agent.py:237 | "Ranked r out of t sites" with r one more than the competitors scoring at least as high and t all sites; "N/A out of 1" without competitors |
| `Analysis.CompetitorsTagged` | backend/app/agents/analysis_agent.py:75-84 | one competitor per URL, in order, each tagged with its URL |
| `Analysis.CollectCompetitors` | backend/app/agents/analysis_agent.py:74-84 | the competitor loop appends one site record per URL, in order, as the specification function lists them |
| `Analysis.AggregateMetrics` | backend/app/agents/analysis_agent.py:37-98 | the competitor loop builds the aggregate of the specification function |
| `Analysis.AggregatePartition` | backend/app/agents/analysis_agent.py:63-90 | a main site iff some Lighthouse record is main; one competitor per non-main record, in order; comparisons iff there are competitors |
| `Analysis.RuleBasedShape` | backend/app/agents/analysis_agent.py:361-402 | an FCP entry iff the main Lighthouse FCP exceeds 3000 and an LCP entry iff its LCP exceeds 4000, both high and first; the caching entry always last; 1 to 3 entries |
| `Analysis.ChooseProvider` | backend/app/agents/analysis_agent.py:19-35 | OpenAI when its key is set, else Anthropic when its key is set, else none |
| `Analysis.RecommendationsSource` | backend/app/agents/analysis_agent.py:292-359 | without a model, or when the reply has no JSON array or raised, the rule-based list; otherwise the model's list |
| `Report.ScoreRating` | backend/app/agents/report_agent.py:544-553 | Excellent from 90, Good from 75, Fair from 50, Poor below |
| `Report.TimingRating` | backend/app/agents/report_agent.py:555-571 | Good below the first threshold, Needs Improvement below the second, Poor from it on |
| `Report.ScoreRatingAgrees` | backend/app/agents/report_agent.py:544-553 | the report's score rating and the summary's overall rating put every score in the same bucket |
| `Report.TimingRatingsAgree` | backend/app/agents/report_agent.py:555-571 | the report's FCP and LCP ratings agree with the summary's key-metric ratings |
| `Report.ExecutiveSummary` | backend/app/agents/report_agent.py:208-231 | the overall and key-metrics lines always (N/A when missing), the ranking line iff the ranking text is non-empty |
| `Report.RankingLineShown` | backend/app/agents/report_agent.py:219-223 | an aggregate from the analysis always has a ranking line |
| `Report.ScoresTable` | backend/app/agents/report_agent.py:249-278 | header and overall row always, an FCP row iff the FCP average is nonzero, an LCP row iff the LCP average is nonzero, in that order (2 to 4 rows) |
| `Report.DetailedMetricsNeverShown` | backend/app/agents/report_agent.py:313-314 | as written, no Lighthouse table is ever produced for workflow records |
| `Report.DetailedMetrics` | backend/app/agents/report_agent.py:313-324 | the five-row Lighthouse table iff the first main record's run succeeded, read from its metrics |
| `Report.DetailedMetricsDiscrepancy` | backend/app/agents/report_agent.py:313-314 | for a successful main run the as-written section is empty while the corrected one is shown |
| `Report.DisplayUrlShape` | backend/app/agents/report_agent.py:399-402 | at most 30 characters; the unschemed URL when it fits, otherwise its first 27 characters and "..." |
| `Report.DisplayUrlOfHttps` | backend/app/agents/report_agent.py:400 | a short https URL is shown without its scheme |
| `Report.StatusLabel` | backend/app/agents/report_agent.py:404 | exactly one of Better (competitor below main), Worse (above) and Equal |
| `Report.StatusLabelMatchesComparison` | backend/app/agents/report_agent.py:404 | "Better" in the table iff the analysis put the competitor in better-than; anything else iff worse-than |
| `Report.CompetitorRow` | backend/app/agents/report_agent.py:392-412 | five cells, the last a status label |
| `Report.ComparisonTable` | backend/app/agents/report_agent.py:372-412 | the table loop appends one competitor row after the header and main rows, giving the rows of the specification function |
| `Report.ComparisonRowsShape` | backend/app/agents/report_agent.py:372-412 | header, the main row, then one row per competitor in order, each of five cells |
| `Report.StatusStyles` | backend/app/agents/report_agent.py:431-438 | the loop from row 2 yields the styles of the specification function |
| `Report.StylesExactlyLabelled` | backend/app/agents/report_agent.py:431-438 | only Worse and Better rows are coloured, and each gets its background and text colour |
| `Report.CompetitorComparison` | backend/app/agents/report_agent.py:340-457 | the rank line always; table, styles and counts line exactly when there are competitors; with competitors the table is header, main row and one row per competitor, and the styles are those of its status cells |
| `Report.PriorityColour` | backend/app/agents/report_agent.py:475-479 | high red, medium orange, low green, anything else grey |
| `Report.HeadingsDistinct` | backend/app/agents/report_agent.py:488 | different numbers give different headings, whatever the titles |
| `Report.EntryFor` | backend/app/agents/report_agent.py:472-507 | priority defaults to medium and fixes colour and badge; title defaults to "Recommendation", category to "General", description to "No description available."; the impact line iff the impact is non-empty |
| `Report.RecommendationsSection` | backend/app/agents/report_agent.py:472-511 | one entry per recommendation, numbered 1..n in input order |
| `Report.SectionHeadingsDistinct` | backend/app/agents/report_agent.py:472-491 | no two entries of a section share a heading |
| `Report.DesktopShot` | backend/app/agents/report_agent.py:527-533 | the desktop image iff the first main capture succeeded with a non-empty desktop path that exists |
| `Report.ReportOutcome` | backend/app/agents/report_agent.py:59-139 | written iff the build returned: file name performance_report_{job}_{timestamp}.pdf in the reports directory and its size; otherwise the exception text |
| `Report.GenerateReport` | backend/app/agents/report_agent.py:28-139 | the sections from their builders, with the detailed section from the corrected builder (see Findings), the comparison section iff there are competitor URLs and then exactly the section `_create_competitor_comparison` builds, and the success or failure record |
| `Workflow.InitializeEffect` | backend/app/langgraph_workflow.py:49-54 | running at progress 5, nothing else changed |
| `Workflow.ResultOrError` | backend/app/langgraph_workflow.py:62-77 | one result per returned call and one error per raised call, together one per URL; `is_main` iff the URL is the main one |
| `Workflow.OutcomeAccounted` | backend/app/langgraph_workflow.py:65-75 | each URL's returned record or error line is present |
| `Workflow.LighthouseNodeFacts` | backend/app/langgraph_workflow.py:57-79 | errors only appended, results plus new errors number the URLs, progress 25, nothing else changed |
| `Workflow.ScreenshotNodeFacts` | backend/app/langgraph_workflow.py:98-120 | the same for screenshots, with progress 70 |
| `Workflow.AnalysisNodeFacts` | backend/app/langgraph_workflow.py:123-150 | an exception appends one "Analysis error" line and changes nothing else; otherwise metrics set, progress 85, errors kept |
| `Workflow.ReportNodeFacts` | backend/app/langgraph_workflow.py:153-180 | success gives completed at 100 even when the PDF failed; an exception appends one error and fails, keeping the progress |
| `Workflow.AnalysisState.constructor` | backend/app/main.py:62-71 | the initial state: running at 10, empty results and errors |
| `Workflow.AnalysisState.InitializeNode` | backend/app/langgraph_workflow.py:49-54 | the state becomes the initialize effect of the old one |
| `Workflow.AnalysisState.LighthouseNode` | backend/app/langgraph_workflow.py:57-79 | the URL loop leaves the Lighthouse effect of the old state |
| `Workflow.AnalysisState.ScreenshotNode` | backend/app/langgraph_workflow.py:98-120 | the URL loop leaves the screenshot effect of the old state |
| `Workflow.AnalysisState.AnalysisNode` | backend/app/langgraph_workflow.py:123-150 | the state becomes the analysis effect of the old one |
| `Workflow.AnalysisState.ReportNode` | backend/app/langgraph_workflow.py:153-180 | the state becomes the report effect of the old one |
| `Workflow.GraphOrder` | backend/app/langgraph_workflow.py:199-207 | from initialize the graph visits lighthouse, capture_screenshots, analysis, report, END |
| `Workflow.ProgressOfSuccessfulRun` | backend/app/langgraph_workflow.py:183-210 | on a run without stage exceptions progress goes 5, 25, 70, 85, 100 and the job completes |
| `Workflow.ErrorsOnlyGrow` | backend/app/langgraph_workflow.py:57-180 | each node keeps the earlier errors as a prefix |
| `Workflow.Run` | backend/app/langgraph_workflow.py:183-210 | the five nodes in graph order leave the last state of the trace |
| `Registry.Started` | backend/app/main.py:55-57 | running at 10 if the job exists, every other job unchanged |
| `Registry.Finish` | backend/app/main.py:77-94 | a finished workflow's fields copied; a crash sets failed at 0 and appends "Workflow error: …"; other jobs unchanged |
| `Registry.StatusOf` | backend/app/main.py:127-142 | 404 for an unknown id; results iff completed; the error text is the errors joined by "; ", none iff there are none |
| `Registry.ResultsOf` | backend/app/main.py:144-163 | 404 for an unknown id, 400 unless completed, else the metrics and errors |
| `Registry.DownloadOf` | backend/app/main.py:165-184 | 404 unknown, 400 unless completed, 404 without a PDF path, else the file named performance_report_{id}.pdf |
| `Registry.DownloadNeedsResults` | backend/app/main.py:144-178 | a report can only be downloaded when the results can be read |
| `Registry.ActiveIds` | backend/app/main.py:186-193 | exactly the jobs queued or running |
| `Registry.StartCountsActive` | backend/app/main.py:105-116 | a new job raises the active count by one |
| `Registry.DeleteCountsActive` | backend/app/main.py:195-207 | deleting a job lowers the active count by one iff it was active |
| `Registry.RunOutcomes` | backend/app/main.py:51-94 | a run without stage exceptions completes at 100 with results; a report exception leaves the job failed with no download |
| `Registry.JobRegistry.constructor` | backend/app/main.py:49 | the job table starts empty |
| `Registry.JobRegistry.StartAnalysis` | backend/app/main.py:96-125 | inserts the queued record at 0 under the id, others unchanged, and answers queued with "Initializing analysis" |
| `Registry.JobRegistry.RunAnalysis` | backend/app/main.py:51-94 | the start step, then the workflow's final state or its crash folded into the table |
| `Registry.JobRegistry.DeleteJob` | backend/app/main.py:195-207 | removes exactly that key and answers "Job deleted successfully"; an unknown id gives 404 and changes nothing |
| `Mcp.Registered` | backend/mcp_servers/example_lighthouse_mcp.py:31-86 | three tools named run_lighthouse_audit, get_web_vitals, analyze_performance, in that order |
| `Mcp.RegisteredDispatch` | backend/mcp_servers/example_lighthouse_mcp.py:31-86 | each registered name finds its own handler |
| `Mcp.LighthouseMcpServer.constructor` | backend/mcp_servers/example_lighthouse_mcp.py:25-29 | host and port as given and the three tools registered |
| `Mcp.LighthouseMcpServer.RegisterTools` | backend/mcp_servers/example_lighthouse_mcp.py:31-86 | appends the three tools after those already present |
| `Mcp.LighthouseMcpServer.ListTools` | backend/mcp_servers/example_lighthouse_mcp.py:161-171 | every tool in registration order as its name, description and parameters |
| `Mcp.Find` | backend/mcp_servers/example_lighthouse_mcp.py:176 | the position of the first tool with the name, absent iff no tool has it |
| `Mcp.FirstReservedSpec` | backend/mcp_servers/example_lighthouse_mcp.py:173 | a `self` or `tool_name` keyword is found iff one is passed, and the first of them in the caller's order is named |
| `Mcp.Execute` | backend/mcp_servers/example_lighthouse_mcp.py:173-191 | a `self` or `tool_name` keyword makes the call itself raise "got multiple values"; otherwise an unknown name gives the not-found error listing all names in order, arguments that do not bind give {error: the binding TypeError text, tool}, a raising handler gives {error: its exception text, tool}, and bound arguments get the first matching tool's handler answer |
| `Mcp.ReservedKeywordsRaise` | backend/mcp_servers/example_lighthouse_mcp.py:173 | `self` or `tool_name` among the keywords raises from the call itself, naming the first of them, for any tool name, known or not |
| `Mcp.KeywordFault` | backend/mcp_servers/example_lighthouse_mcp.py:88-139 | a keyword binds iff it is `url`, or `device` or `categories` given to the audit; any other name is unexpected |
| `Mcp.FirstFaultSpec` | backend/mcp_servers/example_lighthouse_mcp.py:185 | binding fails iff some keyword does not bind, and the fault reported is that of the first such keyword in the caller's order |
| `Mcp.BindingError` | backend/mcp_servers/example_lighthouse_mcp.py:88-139 | the arguments bind iff a URL is given and every keyword binds; otherwise the first faulty keyword is named after the method's qualified name |
| `Mcp.FirstUnexpectedNamed` | backend/mcp_servers/example_lighthouse_mcp.py:112-139 | categories passed before device, or an unknown name before any other, is the one reported; keywords that bind but no URL give the missing URL |
| `Mcp.Lookup` | backend/mcp_servers/example_lighthouse_mcp.py:125-128 | `metrics.get(key)`: present iff the key is, with its value |
| `Mcp.WebVitalsProjection` | backend/mcp_servers/example_lighthouse_mcp.py:112-137 | on success exactly fcp, lcp, cls and ttfb from the metrics; on failure the analysis error |
| `Mcp.AnalysisProjection` | backend/mcp_servers/example_lighthouse_mcp.py:139-159 | on success the suggestions and scores of the analysis; on failure the analysis error |
| `Mcp.AuditEchoes` | backend/mcp_servers/example_lighthouse_mcp.py:88-110 | given a URL and only audit parameters, in any order, the audit returns the URL, the device (desktop when omitted) and the analysis result |
| `Mcp.EffectiveCategories` | backend/mcp_servers/example_lighthouse_mcp.py:96-97 | omitted categories become performance, accessibility, best-practices, seo |

## Left out

- Browser work (Playwright navigation, the Web-Vitals script, `asyncio.sleep`): its result or exception is an input.
- HTTP calls, JSON decoding and `raise_for_status` of the GTmetrix and WebPageTest agents: the response of each call is an input, and only the decisions over it are modelled.
- Language-model calls, the prompt and the JSON extraction: the reply is an input. `ModelReply` holds either the parsed array, no array, or the exception.
- PDF layout, fonts, colours as objects, `doc.build` and `os.path.getsize`: the build's outcome (the file size, or the exception) is an input. Sections are modelled as their rows and lines.
- The title page: it holds only fixed text and the date.
- The timestamps in workflow records: they come from the clock.
- `html.escape` on recommendation texts: a library call. Texts are kept unescaped.
- FastAPI routing, CORS middleware, request validation, background tasks, `uuid` generation, `FileResponse` and the removal of the PDF file on delete: framework and file-system work.
  - The job id is an input.
  - Because `uuid` collisions are not modelled, `StartAnalysis` overwrites an existing key.
- The LangGraph runtime and its `operator.add` reducers: node effects are explicit assignments and appends on one state. When a node returns the whole state, the concatenation the reducer would apply is not modelled.
- The `webpagetest_node` and `gtmetrix_node` nodes and `create_parallel_analysis_graph`: the linear graph does not use them, and the parallel one is concurrency.
- Cross-job concurrency.
- Suggestion and recommendation advice sentences: a suggestion is its metric and severity. The three rule-based recommendations keep their full text.
- Number formatting: this is exact round-half-even over `real`.
  - Python formats binary floating-point values, which can round differently for decimals that are not exactly representable.
  - Integer-valued metrics (`{perf_score}%`) are not distinguished from floats.
- Path handling:
  - `pathlib` is written as `dir + "/" + name`.
  - Normalisation such as dropping a leading "./" is not modelled.
- Environment and `.env` loading, and directory creation in `Settings.__init__`: I/O. Settings are computed from an explicit list of environment variables, read as pydantic-settings 2 reads them. Values from a `.env` file are not modelled.
- `Config.FieldValue`: variable names are lower-cased on ASCII letters only. Python's `str.lower` also maps other letters.
- `Config.ParsePort`: it accepts only plain decimal digits. Signs, surrounding spaces and underscores, which `int()` or pydantic's integer parsing also accept, give no settings here.
- `Config.ParseBool`: leading or trailing spaces around a boolean value are not modelled; such a value is rejected.
- `main.py` lines 92-93 (creating a missing `errors` list): every job record carries `errors`, so that branch is not reachable in the model.
- The MCP server's `start` and usage example: they print only.
- The `items` entry in the parameter description of the `categories` parameter.
- The import path from which the handlers load `LighthouseAgent`: it is treated as resolvable.
- Exception texts Python builds itself: the `TypeError` texts of a failed keyword binding and of `None >= 400` follow CPython 3.10. Other versions may word them differently, or add a suggestion such as "Did you mean 'url'?".
- `Mcp.BindingError`: a keyword of another name is taken to be none of `url`, `device` and `categories`, and keyword values are not type-checked, as Python does not check them either.
- `Mcp.Execute`: a call that raises from `execute_tool` itself (a `self` or `tool_name` keyword) is the response `CallRaised`. In the program nothing is returned: the `TypeError` reaches the caller.
- `Lighthouse.Analyze`: the success record's metrics are numbers only. The `pageInfo` dictionary and the `statusCode` (an integer or `None`) that `_collect_metrics` adds to them are not modelled, so they are not echoed by the audit tool or kept in the job's results.
- `Gtmetrix.ParsedFields` and `WebPageTest.ParsedFields`: an attribute that is present but JSON null is not modelled. There `.get(key, 0)` returns `None`, the comparisons in `_generate_suggestions` raise `TypeError`, and the agent returns its failure record. The model reads such an attribute like a missing one, as 0.
- `Report.GenerateReport`: its detailed section is the corrected `Report.DetailedMetrics`. As written, the program never shows that table for the workflow's records (see Findings and `Report.DetailedMetricsNeverShown`).
- `Text.Upper`, `Text.Lower` and `Report.EntryFor`: case mapping covers ASCII letters only, so a priority such as "élevé" gets the badge "[éLEVé]" where Python shows "[ÉLEVÉ]".
- `Report.EntryFor`: a JSON null priority, title, category or description is treated like a missing one and falls back to its default. In the program, `.upper()` or `html.escape` raises on `None`, and `generate_report` returns its failure record.

## Findings

| source | as written | input that shows it | evidently intended | confidence | as-written member | corrected member |
|---|---|---|---|---|---|---|
| backend/app/agents/report_agent.py:313-314 | the detailed Lighthouse table is emitted only if the main record has a top-level `success` key, but the workflow's records (backend/app/langgraph_workflow.py:68-73) carry only `url`, `is_main`, `data` and `timestamp` | a run whose main Lighthouse record is `{url, is_main: true, data: {success: true, metrics: {...}}}` gives no "Lighthouse Metrics" table | test `data.success`, as the rest of the code does for these records (analysis_agent.py:111, report_agent.py:529) | not executed | `Report.DetailedMetricsNeverShown` | `Report.DetailedMetrics` |
