/** WebPageTest agent (backend/app/agents/webpagetest_agent.py): the key gate
    and fallback payload, the status check of a submission, the poll loop over
    the status codes the API reports, the projection of the first view and
    the suggestion rules. The HTTP exchanges are input outcomes. */
module WebPageTest {
  import opened Wrappers
  import opened Measurements
  import Text

  // ---------------------------------------------------------------------------
  // Fallback (`_fallback_analysis`)
  // ---------------------------------------------------------------------------

  const FallbackMessage: string := "WebPageTest API key not configured. Using estimated metrics."

  /** The payload returned without a key: flagged successful and fallback,
      three zero metrics, no scores, one informational suggestion. */
  function Fallback(url: string): (r: ToolData)
    ensures r.success && r.fallback && r.url == url && r.scores == map[]
    ensures r.metrics.Keys == {"loadTime", "TTFB", "speedIndex"}
    ensures forall k :: k in r.metrics ==> r.metrics[k] == 0.0
    ensures r.suggestions == [Suggestion("Configuration", Info)]
    ensures r.message == Some(FallbackMessage) && r.error.None?
  {
    ToolData(true, true, url, map["loadTime" := 0.0, "TTFB" := 0.0, "speedIndex" := 0.0],
      map[], [Suggestion("Configuration", Info)], None, None, None, Some(FallbackMessage))
  }

  // ---------------------------------------------------------------------------
  // Submission (`_submit_test`)
  // ---------------------------------------------------------------------------

  /** The response to a submission: the request raised, or the body's
      `statusCode` (None when absent or not a number), `statusText` and
      `data.testId`. */
  datatype SubmitResponse =
    | SubmitRaised(message: string)
    | SubmitBody(statusCode: Option<int>, statusText: Option<string>, testId: string)

  /** The test id, or the exception text; anything but status 200 fails. */
  function SubmitTest(response: SubmitResponse): (r: Result<string, string>)
    ensures r.Success? <==> response.SubmitBody? && response.statusCode == Some(200)
    ensures r.Success? ==> r.value == response.testId
    ensures response.SubmitBody? && response.statusCode != Some(200) ==>
      r == Failure("Test submission failed: " + response.statusText.GetOr("None"))
  {
    match response
    case SubmitRaised(msg) => Failure(msg)
    case SubmitBody(code, text, id) =>
      if code != Some(200) then Failure("Test submission failed: " + text.GetOr("None")) else Success(id)
  }

  // ---------------------------------------------------------------------------
  // Result parsing (`_parse_results`)
  // ---------------------------------------------------------------------------

  /** `data.runs['1'].firstView`: its numeric fields, its `lighthouse` map when
      present, and `images.waterfall` when present. */
  datatype FirstView = FirstView(values: Metrics, lighthouse: Option<Metrics>, waterfall: Option<string>)

  /** The result dictionaries; `waterfall` is None for the empty dictionary. */
  datatype Parsed = Parsed(metrics: Metrics, scores: Metrics, waterfall: Option<string>)

  const MetricFields: seq<(string, string)> := [
    ("loadTime", "loadTime"),
    ("TTFB", "TTFB"),
    ("startRender", "render"),
    ("fullyLoaded", "fullyLoaded"),
    ("speedIndex", "SpeedIndex"),
    ("firstContentfulPaint", "firstContentfulPaint"),
    ("largestContentfulPaint", "chromeUserTiming.LargestContentfulPaint"),
    ("cumulativeLayoutShift", "chromeUserTiming.CumulativeLayoutShift"),
    ("totalBlockingTime", "TotalBlockingTime"),
    ("bytesIn", "bytesIn"),
    ("requests", "requests")]

  const ScoreFields: seq<(string, string)> := [
    ("performance", "Performance"),
    ("accessibility", "Accessibility"),
    ("bestPractices", "Best Practices"),
    ("seo", "SEO")]

  /** The names of equal length differ in their first character. */
  lemma FieldsDistinct()
    ensures DistinctNames(MetricFields) && DistinctNames(ScoreFields)
  {
    assert MetricFields[0].0[0] != MetricFields[10].0[0];
    assert MetricFields[2].0[0] != MetricFields[3].0[0];
    assert ScoreFields[1].0[0] != ScoreFields[2].0[0];
  }

  /** The result dictionaries; `firstView` is None when the path to the first
      view cannot be read, which yields empty metrics, scores and waterfall.
      Metrics come from the first view and scores from its `lighthouse` map,
      each 0 when absent; the waterfall URL defaults to "". */
  function ParseResults(firstView: Option<FirstView>): Parsed {
    match firstView
    case None => Parsed(map[], map[], None)
    case Some(v) =>
      Parsed(Project(MetricFields, v.values), Project(ScoreFields, v.lighthouse.GetOr(map[])),
             Some(v.waterfall.GetOr("")))
  }

  /** An unreadable first view gives empty results; otherwise one entry per
      metric and score name, holding its value, 0 when absent, and the
      waterfall URL, "" when absent. */
  lemma ParsedFields(firstView: Option<FirstView>)
    ensures var r := ParseResults(firstView);
      (firstView.None? ==> r.metrics == map[] && r.scores == map[] && r.waterfall.None?) &&
      (firstView.Some? ==>
        r.metrics.Keys == (set i | 0 <= i < |MetricFields| :: MetricFields[i].0) &&
        r.scores.Keys == (set i | 0 <= i < |ScoreFields| :: ScoreFields[i].0) &&
        (forall i :: 0 <= i < |MetricFields| ==>
           r.metrics[MetricFields[i].0] == Get(firstView.value.values, MetricFields[i].1)) &&
        (forall i :: 0 <= i < |ScoreFields| ==>
           r.scores[ScoreFields[i].0] == Get(firstView.value.lighthouse.GetOr(map[]), ScoreFields[i].1)) &&
        r.waterfall == Some(firstView.value.waterfall.GetOr("")))
  {
    if firstView.Some? {
      FieldsDistinct();
      ProjectValues(MetricFields, firstView.value.values);
      ProjectValues(ScoreFields, firstView.value.lighthouse.GetOr(map[]));
    }
  }

  /** Without a `lighthouse` map every score is 0. */
  lemma NoLighthouseZeroScores(values: Metrics, waterfall: Option<string>)
    ensures var r := ParseResults(Some(FirstView(values, None, waterfall)));
      forall k :: k in r.scores ==> r.scores[k] == 0.0
  {
    var r := ParseResults(Some(FirstView(values, None, waterfall)));
    ParsedFields(Some(FirstView(values, None, waterfall)));
    forall k | k in r.scores ensures r.scores[k] == 0.0 {
      var i :| 0 <= i < |ScoreFields| && ScoreFields[i].0 == k;
    }
  }

  // ---------------------------------------------------------------------------
  // Polling (`_wait_for_results`)
  // ---------------------------------------------------------------------------

  /** What one poll observed: the request raised, or the body's `statusCode`
      (None when absent), `statusText` and first view (None when unreadable). */
  datatype Poll =
    | PollRaised(message: string)
    | PollBody(statusCode: Option<int>, statusText: Option<string>, firstView: Option<FirstView>)

  /** Why waiting failed. A missing status code makes the `>=` comparison
      raise a TypeError. */
  datatype WaitError =
    | Timeout(maxWait: int)
    | TestFailed(statusText: Option<string>)
    | MissingStatus
    | RequestFailed(message: string)

  function ErrorMessage(e: WaitError): string {
    match e
    case Timeout(w) => "Test timeout after " + Text.IntToString(w) + " seconds"
    case TestFailed(text) => "Test failed: " + text.GetOr("None")
    case MissingStatus => "'>=' not supported between instances of 'NoneType' and 'int'"
    case RequestFailed(msg) => msg
  }

  /** A poll after which the loop goes on: a status code below 400 other than 200. */
  predicate Pending(p: Poll) {
    p.PollBody? && p.statusCode.Some? && p.statusCode.value != 200 && p.statusCode.value < 400
  }

  function Decide(p: Poll): Result<Parsed, WaitError>
    requires !Pending(p)
  {
    match p
    case PollRaised(msg) => Failure(RequestFailed(msg))
    case PollBody(code, text, view) =>
      if code == Some(200) then Success(ParseResults(view))
      else if code.None? then Failure(MissingStatus)
      else Failure(TestFailed(text))
  }

  function WaitSpec(polls: seq<Poll>, maxWait: int): Result<Parsed, WaitError>
    decreases |polls|
  {
    if polls == [] then Failure(Timeout(maxWait))
    else if Pending(polls[0]) then WaitSpec(polls[1..], maxWait)
    else Decide(polls[0])
  }

  /** The first poll that is not pending decides the outcome. */
  lemma {:induction false} WaitDecidedByFirstFinal(polls: seq<Poll>, maxWait: int, i: nat)
    requires i < |polls| && !Pending(polls[i])
    requires forall j :: 0 <= j < i ==> Pending(polls[j])
    ensures WaitSpec(polls, maxWait) == Decide(polls[i])
    decreases i
  {
    if i > 0 {
      WaitDecidedByFirstFinal(polls[1..], maxWait, i - 1);
    }
  }

  /** Polling times out exactly when every poll reports a code below 400
      other than 200. */
  lemma {:induction false} WaitTimeout(polls: seq<Poll>, maxWait: int)
    ensures WaitSpec(polls, maxWait) == Failure(Timeout(maxWait)) <==>
      forall j :: 0 <= j < |polls| ==> Pending(polls[j])
    decreases |polls|
  {
    if polls != [] {
      WaitTimeout(polls[1..], maxWait);
      if Pending(polls[0]) {
        assert forall j :: 1 <= j < |polls| ==> polls[j] == polls[1..][j - 1];
      }
    }
  }

  /** `_wait_for_results`: polls at most `PollBudget(maxWait)` times; status
      200 returns the parsed result, a status of 400 or more raises, a missing
      status raises a TypeError, anything else polls again. */
  method WaitForResults(polls: seq<Poll>, maxWait: int) returns (r: Result<Parsed, WaitError>, polled: nat)
    requires |polls| >= PollBudget(maxWait)
    ensures polled <= PollBudget(maxWait)
    ensures r == WaitSpec(polls[..PollBudget(maxWait)], maxWait)
    ensures r == Failure(Timeout(maxWait)) ==> polled == PollBudget(maxWait)
    ensures r != Failure(Timeout(maxWait)) ==>
      0 < polled && !Pending(polls[polled - 1]) && r == Decide(polls[polled - 1]) &&
      forall j :: 0 <= j < polled - 1 ==> Pending(polls[j])
  {
    var budget := PollBudget(maxWait);
    var i := 0;
    while i < budget
      invariant 0 <= i <= budget
      invariant forall j :: 0 <= j < i ==> Pending(polls[j])
      invariant WaitSpec(polls[..budget], maxWait) == WaitSpec(polls[i..budget], maxWait)
    {
      var p := polls[i];
      assert polls[i..budget][0] == p;
      if p.PollRaised? {
        return Failure(RequestFailed(p.message)), i + 1;
      }
      match p.statusCode {
        case Some(code) =>
          if code == 200 {
            return Success(ParseResults(p.firstView)), i + 1;
          } else if code >= 400 {
            return Failure(TestFailed(p.statusText)), i + 1;
          }
        case None =>
          return Failure(MissingStatus), i + 1;
      }
      assert polls[i..budget][1..] == polls[i + 1..budget];
      i := i + 1;
    }
    return Failure(Timeout(maxWait)), budget;
  }

  // ---------------------------------------------------------------------------
  // Suggestions (`_generate_suggestions`)
  // ---------------------------------------------------------------------------

  const SuggestionOrder: seq<string> :=
    ["Speed Index", "Total Blocking Time", "Page Weight", "HTTP Requests"]

  function Parts(m: Metrics): (p: seq<seq<Suggestion>>)
    ensures PartsFor(p, SuggestionOrder)
    ensures forall k, i :: 0 <= k < |p| && 0 <= i < |p[k]| ==> p[k][i].severity in {High, Medium}
  {
    [AboveThreshold("Speed Index", Get(m, "speedIndex"), 2500.0, 4000.0),
     Exceeds("Total Blocking Time", Get(m, "totalBlockingTime"), 300.0, High),
     Exceeds("Page Weight", Get(m, "bytesIn"), 2000000.0, Medium),
     Exceeds("HTTP Requests", Get(m, "requests"), 100.0, Medium)]
  }

  /** At most four suggestions, in the order speed index, blocking time, page
      weight, requests. */
  function Suggestions(m: Metrics): (r: seq<Suggestion>)
    ensures |r| <= 4
    ensures InOrder(r, SuggestionOrder)
    ensures forall i :: 0 <= i < |r| ==> r[i].severity in {High, Medium}
  {
    FlattenInOrder(Parts(m), SuggestionOrder);
    FlattenSeverities(Parts(m), {High, Medium});
    Flatten(Parts(m))
  }

  /** The rule for each metric. */
  lemma SuggestionsPerMetric(m: Metrics)
    ensures var r := Suggestions(m);
      (Suggestion("Speed Index", High) in r <==> Get(m, "speedIndex") > 4000.0) &&
      (Suggestion("Speed Index", Medium) in r <==> 2500.0 < Get(m, "speedIndex") <= 4000.0) &&
      (Suggestion("Total Blocking Time", High) in r <==> Get(m, "totalBlockingTime") > 300.0) &&
      (Suggestion("Page Weight", Medium) in r <==> Get(m, "bytesIn") > 2000000.0) &&
      (Suggestion("HTTP Requests", Medium) in r <==> Get(m, "requests") > 100.0)
  {
    var p, o := Parts(m), SuggestionOrder;
    FlattenIn(p, o, 0, Suggestion("Speed Index", High));
    FlattenIn(p, o, 0, Suggestion("Speed Index", Medium));
    FlattenIn(p, o, 1, Suggestion("Total Blocking Time", High));
    FlattenIn(p, o, 2, Suggestion("Page Weight", Medium));
    FlattenIn(p, o, 3, Suggestion("HTTP Requests", Medium));
  }

  // ---------------------------------------------------------------------------
  // `analyze`
  // ---------------------------------------------------------------------------

  const MaxWait: int := 180

  function AnalyzeSpec(url: string, apiKey: string, submit: SubmitResponse, polls: seq<Poll>): ToolData {
    if apiKey == "" then Fallback(url)
    else match SubmitTest(submit)
      case Failure(e) => FailedAnalysis(url, e)
      case Success(testId) =>
        match WaitSpec(polls, MaxWait)
        case Failure(e) => FailedAnalysis(url, ErrorMessage(e))
        case Success(p) =>
          ToolData(true, false, url, p.metrics, p.scores, Suggestions(p.metrics),
                   Some(testId), p.waterfall, None, None)
  }

  /** `analyze`: the key gate, then submission and polling. */
  method Analyze(url: string, apiKey: string, submit: SubmitResponse, polls: seq<Poll>) returns (r: ToolData)
    requires |polls| >= PollBudget(MaxWait)
    ensures r == AnalyzeSpec(url, apiKey, submit, polls[..PollBudget(MaxWait)])
  {
    if apiKey == "" {
      return Fallback(url);
    }
    var submitted := SubmitTest(submit);
    match submitted {
      case Failure(e) =>
        return FailedAnalysis(url, e);
      case Success(testId) =>
        var result, _ := WaitForResults(polls, MaxWait);
        match result {
          case Failure(e) =>
            return FailedAnalysis(url, ErrorMessage(e));
          case Success(p) =>
            return ToolData(true, false, url, p.metrics, p.scores, Suggestions(p.metrics),
                            Some(testId), p.waterfall, None, None);
        }
    }
  }

  /** The fallback payload is returned exactly when the key is missing;
      otherwise the result is a real measurement or a failure. */
  lemma AnalyzeGate(url: string, apiKey: string, submit: SubmitResponse, polls: seq<Poll>)
    ensures var r := AnalyzeSpec(url, apiKey, submit, polls);
      r.url == url &&
      (r.fallback <==> apiKey == "") &&
      (!r.fallback ==> (r.success <==> SubmitTest(submit).Success? && WaitSpec(polls, MaxWait).Success?)) &&
      (!r.success ==> r.metrics == map[] && r.scores == map[] && r.suggestions == [] && r.error.Some?)
  {
  }
}
