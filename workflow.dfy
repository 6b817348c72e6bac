/** The analysis workflow (backend/app/langgraph_workflow.py): a shared state
    record that five nodes update in a fixed order. What an agent returns or
    raises for each URL, whether the analysis or report stage raised, and
    the model's reply are inputs. */
module Workflow {
  import opened Wrappers
  import opened Measurements
  import Analysis
  import Report
  import Screenshot

  type CaptureRecord = UrlRecord<Screenshot.CaptureResult>

  /** The workflow state as a value. `aggregatedMetrics` and `pdfData` are
      None while they hold the initial `{}`. */
  datatype StateView = StateView(
    jobId: string,
    mainUrl: string,
    competitorUrls: seq<string>,
    lighthouseResults: seq<ToolRecord>,
    webpagetestResults: seq<ToolRecord>,
    gtmetrixResults: seq<ToolRecord>,
    screenshots: seq<CaptureRecord>,
    aggregatedMetrics: Option<Analysis.Aggregated>,
    recommendations: seq<Analysis.Recommendation>,
    pdfData: Option<Report.ReportResult>,
    status: string,
    progress: int,
    errors: seq<string>)

  /** The state `run_analysis` starts the graph with; the result lists and
      `errors` start empty. */
  function Initial(jobId: string, mainUrl: string, competitorUrls: seq<string>): StateView {
    StateView(jobId, mainUrl, competitorUrls, [], [], [], [], None, [], None, "running", 10, [])
  }

  /** The URLs every per-URL node visits: the main URL, then the competitors. */
  function AllUrls(v: StateView): seq<string> {
    [v.mainUrl] + v.competitorUrls
  }

  // ---------------------------------------------------------------------------
  // Per-URL collection (the loops of `lighthouse_node` and `screenshot_node`)
  // ---------------------------------------------------------------------------

  /** The records for the URLs whose call returned, in URL order. */
  function Results<T>(urls: seq<string>, mainUrl: string, outcomes: seq<CallOutcome<T>>): seq<UrlRecord<T>>
    requires |outcomes| == |urls|
    decreases |urls|
  {
    if urls == [] then []
    else
      var n := |urls| - 1;
      Results(urls[..n], mainUrl, outcomes[..n]) +
      (if outcomes[n].Returned? then [UrlRecord(urls[n], urls[n] == mainUrl, outcomes[n].value)] else [])
  }

  /** `f"{stage} error for {url}: {message}"`. */
  function ErrorLine(stage: string, url: string, message: string): string {
    stage + " error for " + url + ": " + message
  }

  /** The error lines for the URLs whose call raised, in URL order. */
  function Errors<T>(stage: string, urls: seq<string>, outcomes: seq<CallOutcome<T>>): seq<string>
    requires |outcomes| == |urls|
    decreases |urls|
  {
    if urls == [] then []
    else
      var n := |urls| - 1;
      Errors(stage, urls[..n], outcomes[..n]) +
      (if outcomes[n].Raised? then [ErrorLine(stage, urls[n], outcomes[n].message)] else [])
  }

  /** The number of calls that returned. */
  function Returns<T>(outcomes: seq<CallOutcome<T>>): nat
    decreases |outcomes|
  {
    if outcomes == [] then 0
    else Returns(outcomes[..|outcomes| - 1]) + (if outcomes[|outcomes| - 1].Returned? then 1 else 0)
  }

  /** Every URL contributes exactly one record or exactly one error line:
      one record per call that returned and one line per call that raised;
      each record keeps its URL and is flagged main exactly when that URL is
      the main URL. */
  lemma {:induction false} ResultOrError<T>(stage: string, urls: seq<string>, mainUrl: string,
                                            outcomes: seq<CallOutcome<T>>)
    requires |outcomes| == |urls|
    ensures |Results(urls, mainUrl, outcomes)| == Returns(outcomes)
    ensures |Errors(stage, urls, outcomes)| == |urls| - Returns(outcomes)
    ensures forall r :: r in Results(urls, mainUrl, outcomes) ==> r.url in urls && (r.isMain <==> r.url == mainUrl)
  {
    ResultCounts(stage, urls, mainUrl, outcomes);
    ResultsTagged(urls, mainUrl, outcomes);
  }

  lemma {:induction false} ResultCounts<T>(stage: string, urls: seq<string>, mainUrl: string,
                                           outcomes: seq<CallOutcome<T>>)
    requires |outcomes| == |urls|
    ensures |Results(urls, mainUrl, outcomes)| == Returns(outcomes)
    ensures |Errors(stage, urls, outcomes)| == |urls| - Returns(outcomes)
    decreases |urls|
  {
    if urls != [] {
      var n := |urls| - 1;
      ResultCounts(stage, urls[..n], mainUrl, outcomes[..n]);
      ReturnsBound(outcomes[..n]);
    }
  }

  lemma {:induction false} ResultsTagged<T>(urls: seq<string>, mainUrl: string, outcomes: seq<CallOutcome<T>>)
    requires |outcomes| == |urls|
    ensures forall r :: r in Results(urls, mainUrl, outcomes) ==> r.url in urls && (r.isMain <==> r.url == mainUrl)
    decreases |urls|
  {
    if urls != [] {
      var n := |urls| - 1;
      ResultsTagged(urls[..n], mainUrl, outcomes[..n]);
      assert forall u :: u in urls[..n] ==> u in urls;
    }
  }

  lemma {:induction false} ReturnsBound<T>(outcomes: seq<CallOutcome<T>>)
    ensures Returns(outcomes) <= |outcomes|
    decreases |outcomes|
  {
    if outcomes != [] {
      ReturnsBound(outcomes[..|outcomes| - 1]);
    }
  }

  /** A call that returned for URL `i` gives a record for that URL, and one
      that raised gives its error line. */
  lemma {:induction false} OutcomeAccounted<T>(stage: string, urls: seq<string>, mainUrl: string,
                                               outcomes: seq<CallOutcome<T>>, i: nat)
    requires |outcomes| == |urls| && i < |urls|
    ensures outcomes[i].Returned? ==>
      UrlRecord(urls[i], urls[i] == mainUrl, outcomes[i].value) in Results(urls, mainUrl, outcomes)
    ensures outcomes[i].Raised? ==>
      ErrorLine(stage, urls[i], outcomes[i].message) in Errors(stage, urls, outcomes)
    decreases |urls|
  {
    var n := |urls| - 1;
    if i < n {
      OutcomeAccounted(stage, urls[..n], mainUrl, outcomes[..n], i);
    }
  }

  // ---------------------------------------------------------------------------
  // Node effects
  // ---------------------------------------------------------------------------

  /** `initialize_node`: running, progress 5, nothing else changes. */
  function InitializeEffect(v: StateView): (w: StateView)
    ensures w.status == "running" && w.progress == 5
    ensures w.(status := v.status, progress := v.progress) == v
  {
    v.(status := "running", progress := 5)
  }

  function LighthouseEffect(v: StateView, outcomes: seq<CallOutcome<ToolData>>): StateView
    requires |outcomes| == |AllUrls(v)|
  {
    v.(lighthouseResults := Results(AllUrls(v), v.mainUrl, outcomes),
       errors := v.errors + Errors("Lighthouse", AllUrls(v), outcomes),
       progress := 25)
  }

  function ScreenshotEffect(v: StateView, outcomes: seq<CallOutcome<Screenshot.CaptureResult>>): StateView
    requires |outcomes| == |AllUrls(v)|
  {
    v.(screenshots := Results(AllUrls(v), v.mainUrl, outcomes),
       errors := v.errors + Errors("Screenshot", AllUrls(v), outcomes),
       progress := 70)
  }

  /** `analysis_node`: `failure` is what the stage raised, if anything. */
  function AnalysisEffect(v: StateView, failure: Option<string>, provider: Analysis.Provider,
                          reply: Analysis.ModelReply): StateView
  {
    match failure
    case Some(e) => v.(errors := v.errors + ["Analysis error: " + e])
    case None =>
      var agg := Analysis.Aggregate(v.lighthouseResults, v.webpagetestResults, v.gtmetrixResults);
      v.(aggregatedMetrics := Some(agg),
         recommendations := Analysis.GenerateRecommendations(provider, reply, agg),
         progress := 85)
  }

  /** `report_node`: `failure` is an exception outside `generate_report`,
      which itself returns its failures. */
  function ReportEffect(v: StateView, failure: Option<string>, timestamp: string, reportsDir: string,
                        build: CallOutcome<nat>): StateView
  {
    match failure
    case Some(e) => v.(errors := v.errors + ["Report generation error: " + e], status := "failed")
    case None =>
      v.(pdfData := Some(Report.ReportOutcome(v.jobId, timestamp, reportsDir, build)), progress := 100,
         status := "completed")
  }

  /** The lighthouse node visits the main URL and the competitors in order,
      yields one record or one error line per URL, never touches an earlier
      error, and sets progress 25. */
  lemma LighthouseNodeFacts(v: StateView, outcomes: seq<CallOutcome<ToolData>>)
    requires |outcomes| == |AllUrls(v)|
    ensures var w := LighthouseEffect(v, outcomes);
      v.errors <= w.errors && w.progress == 25 &&
      |w.lighthouseResults| + |w.errors| - |v.errors| == |AllUrls(v)| &&
      (forall r :: r in w.lighthouseResults ==> r.url in AllUrls(v) && (r.isMain <==> r.url == v.mainUrl)) &&
      w.(lighthouseResults := v.lighthouseResults, errors := v.errors, progress := v.progress) == v
  {
    ResultOrError("Lighthouse", AllUrls(v), v.mainUrl, outcomes);
  }

  /** The screenshot node has the same one-record-or-one-error shape and sets
      progress 70. */
  lemma ScreenshotNodeFacts(v: StateView, outcomes: seq<CallOutcome<Screenshot.CaptureResult>>)
    requires |outcomes| == |AllUrls(v)|
    ensures var w := ScreenshotEffect(v, outcomes);
      v.errors <= w.errors && w.progress == 70 &&
      |w.screenshots| + |w.errors| - |v.errors| == |AllUrls(v)| &&
      (forall r :: r in w.screenshots ==> r.url in AllUrls(v) && (r.isMain <==> r.url == v.mainUrl)) &&
      w.(screenshots := v.screenshots, errors := v.errors, progress := v.progress) == v
  {
    ResultOrError("Screenshot", AllUrls(v), v.mainUrl, outcomes);
  }

  /** A failing analysis adds exactly one error line and changes nothing
      else; a succeeding one sets the aggregate, the recommendations and
      progress 85 and adds no error. */
  lemma AnalysisNodeFacts(v: StateView, failure: Option<string>, provider: Analysis.Provider,
                          reply: Analysis.ModelReply)
    ensures var w := AnalysisEffect(v, failure, provider, reply);
      (failure.Some? ==> w == v.(errors := v.errors + ["Analysis error: " + failure.value])) &&
      (failure.None? ==> w.errors == v.errors && w.progress == 85 && w.aggregatedMetrics.Some? &&
                         w.status == v.status)
  {
  }

  /** Without an exception the report node completes the job even when the
      PDF could not be written; with one it fails the job and leaves the
      progress. */
  lemma ReportNodeFacts(v: StateView, failure: Option<string>, timestamp: string, reportsDir: string,
                        build: CallOutcome<nat>)
    ensures var w := ReportEffect(v, failure, timestamp, reportsDir, build);
      (failure.None? ==> w.status == "completed" && w.progress == 100 && w.errors == v.errors &&
                         (build.Raised? ==> w.pdfData == Some(Report.ReportFailed(build.message)))) &&
      (failure.Some? ==> w.status == "failed" && w.progress == v.progress && |w.errors| == |v.errors| + 1 &&
                         v.errors <= w.errors)
  {
  }

  // ---------------------------------------------------------------------------
  // The state object and its nodes
  // ---------------------------------------------------------------------------

  class AnalysisState {
    var jobId: string
    var mainUrl: string
    var competitorUrls: seq<string>
    var lighthouseResults: seq<ToolRecord>
    var webpagetestResults: seq<ToolRecord>
    var gtmetrixResults: seq<ToolRecord>
    var screenshots: seq<CaptureRecord>
    var aggregatedMetrics: Option<Analysis.Aggregated>
    var recommendations: seq<Analysis.Recommendation>
    var pdfData: Option<Report.ReportResult>
    var status: string
    var progress: int
    var errors: seq<string>

    function View(): StateView
      reads this
    {
      StateView(jobId, mainUrl, competitorUrls, lighthouseResults, webpagetestResults, gtmetrixResults,
                screenshots, aggregatedMetrics, recommendations, pdfData, status, progress, errors)
    }

    constructor (jobId: string, mainUrl: string, competitorUrls: seq<string>)
      ensures View() == Initial(jobId, mainUrl, competitorUrls)
    {
      this.jobId := jobId;
      this.mainUrl := mainUrl;
      this.competitorUrls := competitorUrls;
      lighthouseResults := [];
      webpagetestResults := [];
      gtmetrixResults := [];
      screenshots := [];
      aggregatedMetrics := None;
      recommendations := [];
      pdfData := None;
      status := "running";
      progress := 10;
      errors := [];
    }

    method InitializeNode()
      modifies this
      ensures View() == InitializeEffect(old(View()))
    {
      status := "running";
      progress := 5;
    }

    /** `lighthouse_node`: `outcomes[i]` is what analysing the i-th URL
        returned or raised. */
    method LighthouseNode(outcomes: seq<CallOutcome<ToolData>>)
      requires |outcomes| == 1 + |competitorUrls|
      modifies this
      ensures View() == LighthouseEffect(old(View()), outcomes)
    {
      var allUrls := [mainUrl] + competitorUrls;
      var results: seq<ToolRecord> := [];
      ghost var errors0 := errors;
      for i := 0 to |allUrls|
        invariant results == Results(allUrls[..i], mainUrl, outcomes[..i])
        invariant errors == errors0 + Errors("Lighthouse", allUrls[..i], outcomes[..i])
        invariant View() == old(View()).(errors := errors)
        invariant allUrls == [mainUrl] + competitorUrls
      {
        assert allUrls[..i + 1][..i] == allUrls[..i];
        assert outcomes[..i + 1][..i] == outcomes[..i];
        match outcomes[i]
        case Returned(result) =>
          results := results + [UrlRecord(allUrls[i], allUrls[i] == mainUrl, result)];
        case Raised(e) =>
          errors := errors + [ErrorLine("Lighthouse", allUrls[i], e)];
      }
      assert allUrls[..|allUrls|] == allUrls && outcomes[..|outcomes|] == outcomes;
      lighthouseResults := results;
      progress := 25;
    }

    /** `screenshot_node`. */
    method ScreenshotNode(outcomes: seq<CallOutcome<Screenshot.CaptureResult>>)
      requires |outcomes| == 1 + |competitorUrls|
      modifies this
      ensures View() == ScreenshotEffect(old(View()), outcomes)
    {
      var allUrls := [mainUrl] + competitorUrls;
      var results: seq<CaptureRecord> := [];
      ghost var errors0 := errors;
      for i := 0 to |allUrls|
        invariant results == Results(allUrls[..i], mainUrl, outcomes[..i])
        invariant errors == errors0 + Errors("Screenshot", allUrls[..i], outcomes[..i])
        invariant View() == old(View()).(errors := errors)
        invariant allUrls == [mainUrl] + competitorUrls
      {
        assert allUrls[..i + 1][..i] == allUrls[..i];
        assert outcomes[..i + 1][..i] == outcomes[..i];
        match outcomes[i]
        case Returned(result) =>
          results := results + [UrlRecord(allUrls[i], allUrls[i] == mainUrl, result)];
        case Raised(e) =>
          errors := errors + [ErrorLine("Screenshot", allUrls[i], e)];
      }
      assert allUrls[..|allUrls|] == allUrls && outcomes[..|outcomes|] == outcomes;
      screenshots := results;
      progress := 70;
    }

    /** `analysis_node`. */
    method AnalysisNode(failure: Option<string>, provider: Analysis.Provider, reply: Analysis.ModelReply)
      modifies this
      ensures View() == AnalysisEffect(old(View()), failure, provider, reply)
    {
      if failure.Some? {
        errors := errors + ["Analysis error: " + failure.value];
        return;
      }
      var v := View();
      var aggregated, recs := Analyse(v, provider, reply);
      aggregatedMetrics := Some(aggregated);
      recommendations := recs;
      progress := 85;
      assert View() == v.(aggregatedMetrics := Some(aggregated), recommendations := recs, progress := 85);
    }

    /** `report_node`; the document content is not kept in the state. */
    method ReportNode(failure: Option<string>, timestamp: string, reportsDir: string, desktopExists: bool,
                      build: CallOutcome<nat>)
      modifies this
      ensures View() == ReportEffect(old(View()), failure, timestamp, reportsDir, build)
    {
      ghost var v := View();
      if failure.Some? {
        errors := errors + ["Report generation error: " + failure.value];
        status := "failed";
        assert View() == v.(errors := v.errors + ["Report generation error: " + failure.value], status := "failed");
        return;
      }
      var result := WriteReport(View(), timestamp, reportsDir, desktopExists, build);
      pdfData := Some(result);
      progress := 100;
      status := "completed";
      assert View() == v.(pdfData := Some(result), progress := 100, status := "completed");
    }
  }

  /** The calls of `analysis_node` into the analysis agent, on the state's
      result lists. */
  method Analyse(v: StateView, provider: Analysis.Provider, reply: Analysis.ModelReply)
    returns (aggregated: Analysis.Aggregated, recs: seq<Analysis.Recommendation>)
    ensures aggregated == Analysis.Aggregate(v.lighthouseResults, v.webpagetestResults, v.gtmetrixResults)
    ensures recs == Analysis.GenerateRecommendations(provider, reply, aggregated)
  {
    aggregated := Analysis.AggregateMetrics(v.lighthouseResults, v.webpagetestResults, v.gtmetrixResults);
    recs := Analysis.GenerateRecommendations(provider, reply, aggregated);
  }

  /** The call of `report_node` into the report agent, on the state's fields;
      only the returned record is kept. */
  method WriteReport(v: StateView, timestamp: string, reportsDir: string, desktopExists: bool,
                     build: CallOutcome<nat>) returns (result: Report.ReportResult)
    ensures result == Report.ReportOutcome(v.jobId, timestamp, reportsDir, build)
  {
    var _, r := Report.GenerateReport(v.jobId, timestamp, reportsDir, v.competitorUrls, v.lighthouseResults,
                                      v.screenshots, v.aggregatedMetrics, v.recommendations, desktopExists, build);
    result := r;
  }

  // ---------------------------------------------------------------------------
  // The graph
  // ---------------------------------------------------------------------------

  datatype Node = Initialize | Lighthouse | CaptureScreenshots | AnalysisNode | ReportNode | End

  /** The edges of `create_analysis_graph`. */
  function Next(n: Node): Node {
    match n
    case Initialize => Lighthouse
    case Lighthouse => CaptureScreenshots
    case CaptureScreenshots => AnalysisNode
    case AnalysisNode => ReportNode
    case ReportNode => End
    case End => End
  }

  /** The nodes visited from `n` in `k` steps, `n` included. */
  function Walk(n: Node, k: nat): seq<Node>
    decreases k
  {
    if k == 0 then [] else [n] + Walk(Next(n), k - 1)
  }

  /** From the entry point every node runs once, in the fixed order, and the
      sixth step reaches the end, which has no successor. */
  lemma GraphOrder()
    ensures Walk(Initialize, 6) == [Initialize, Lighthouse, CaptureScreenshots, AnalysisNode, ReportNode, End]
    ensures Next(End) == End
  {
  }

  /** The inputs of one run. */
  datatype RunInputs = RunInputs(
    lighthouse: seq<CallOutcome<ToolData>>,
    shots: seq<CallOutcome<Screenshot.CaptureResult>>,
    analysisFailure: Option<string>,
    provider: Analysis.Provider,
    reply: Analysis.ModelReply,
    reportFailure: Option<string>,
    timestamp: string,
    reportsDir: string,
    desktopExists: bool,
    build: CallOutcome<nat>)

  predicate Sized(v: StateView, inputs: RunInputs) {
    |inputs.lighthouse| == |AllUrls(v)| && |inputs.shots| == |AllUrls(v)|
  }

  /** The state after each node, in order. */
  function Trace(v: StateView, inputs: RunInputs): (t: seq<StateView>)
    requires Sized(v, inputs)
    ensures |t| == 5
  {
    var s1 := InitializeEffect(v);
    var s2 := LighthouseEffect(s1, inputs.lighthouse);
    var s3 := ScreenshotEffect(s2, inputs.shots);
    var s4 := AnalysisEffect(s3, inputs.analysisFailure, inputs.provider, inputs.reply);
    var s5 := ReportEffect(s4, inputs.reportFailure, inputs.timestamp, inputs.reportsDir, inputs.build);
    [s1, s2, s3, s4, s5]
  }

  function Progresses(t: seq<StateView>): seq<int> {
    seq(|t|, i requires 0 <= i < |t| => t[i].progress)
  }

  /** On a run where neither stage raises, progress goes 5, 25, 70, 85, 100
      and the job completes. */
  lemma ProgressOfSuccessfulRun(v: StateView, inputs: RunInputs)
    requires Sized(v, inputs) && inputs.analysisFailure.None? && inputs.reportFailure.None?
    ensures Progresses(Trace(v, inputs)) == [5, 25, 70, 85, 100]
    ensures Trace(v, inputs)[4].status == "completed"
  {
  }

  /** No node removes or rewrites an error line: every state's errors
      extend the previous state's. */
  lemma ErrorsOnlyGrow(v: StateView, inputs: RunInputs)
    requires Sized(v, inputs)
    ensures var t := Trace(v, inputs);
      v.errors <= t[0].errors && forall i :: 0 <= i < 4 ==> t[i].errors <= t[i + 1].errors
  {
    var t := Trace(v, inputs);
    LighthouseNodeFacts(t[0], inputs.lighthouse);
    ScreenshotNodeFacts(t[1], inputs.shots);
    AnalysisNodeFacts(t[2], inputs.analysisFailure, inputs.provider, inputs.reply);
    ReportNodeFacts(t[3], inputs.reportFailure, inputs.timestamp, inputs.reportsDir, inputs.build);
    assert t[0].errors <= t[1].errors && t[1].errors <= t[2].errors;
    assert t[2].errors <= t[3].errors && t[3].errors <= t[4].errors;
  }

  /** `graph.ainvoke`: the nodes in edge order on one state object. */
  method Run(state: AnalysisState, inputs: RunInputs)
    requires Sized(state.View(), inputs)
    modifies state
    ensures state.View() == Trace(old(state.View()), inputs)[4]
  {
    ghost var v := state.View();
    state.InitializeNode();
    state.LighthouseNode(inputs.lighthouse);
    state.ScreenshotNode(inputs.shots);
    state.AnalysisNode(inputs.analysisFailure, inputs.provider, inputs.reply);
    state.ReportNode(inputs.reportFailure, inputs.timestamp, inputs.reportsDir, inputs.desktopExists, inputs.build);
  }
}
