/** GTmetrix agent (backend/app/agents/gtmetrix_agent.py): the credential gate
    and fallback payload, the Basic credential, the poll loop over the states
    the API reports, the projection of the result attributes and the
    suggestion rules. The HTTP exchanges are input outcomes. */
module Gtmetrix {
  import opened Wrappers
  import opened Measurements
  import Text
  import Base64

  // ---------------------------------------------------------------------------
  // Credentials
  // ---------------------------------------------------------------------------

  /** `"Basic " + base64(username + ":" + key)`, section 2 of RFC 7617 with the
      encoding of section 4 of RFC 4648: decoding the credential gives back the
      UTF-8 bytes of `username:key`. */
  function AuthHeader(username: string, key: string): (r: string)
    ensures |r| >= 6 && r[..6] == "Basic "
    ensures Base64.Decode(r[6..]) == Some(Base64.Utf8(username + ":" + key))
  {
    var credentials := Base64.Utf8(username + ":" + key);
    Base64.RoundTrip(credentials);
    var r := "Basic " + Base64.Encode(credentials);
    assert r[6..] == Base64.Encode(credentials);
    r
  }

  // ---------------------------------------------------------------------------
  // Fallback (`_fallback_analysis`)
  // ---------------------------------------------------------------------------

  const FallbackMessage: string := "GTmetrix API credentials not configured. Using estimated metrics."

  /** The payload returned without credentials: flagged successful and
      fallback, three zero metrics, no scores, one informational suggestion. */
  function Fallback(url: string): (r: ToolData)
    ensures r.success && r.fallback && r.url == url && r.scores == map[]
    ensures r.metrics.Keys == {"performanceScore", "structureScore", "fullyLoadedTime"}
    ensures forall k :: k in r.metrics ==> r.metrics[k] == 0.0
    ensures r.suggestions == [Suggestion("Configuration", Info)]
    ensures r.message == Some(FallbackMessage) && r.error.None?
  {
    ToolData(true, true, url,
      map["performanceScore" := 0.0, "structureScore" := 0.0, "fullyLoadedTime" := 0.0],
      map[], [Suggestion("Configuration", Info)], None, None, None, Some(FallbackMessage))
  }

  // ---------------------------------------------------------------------------
  // Result parsing (`_parse_results`)
  // ---------------------------------------------------------------------------

  /** The `metrics` and `scores` dictionaries of one finished test. */
  datatype Parsed = Parsed(metrics: Metrics, scores: Metrics)

  /** Each metric name with the API attribute it is read from. */
  const MetricFields: seq<(string, string)> := [
    ("performanceScore", "performance_score"),
    ("structureScore", "structure_score"),
    ("fullyLoadedTime", "fully_loaded_time"),
    ("totalPageSize", "page_bytes"),
    ("requests", "page_elements"),
    ("htmlSize", "html_bytes"),
    ("htmlLoadTime", "html_load_time"),
    ("pagespeedScore", "pagespeed_score"),
    ("yslow_score", "yslow_score"),
    ("ttfb", "time_to_first_byte"),
    ("firstContentfulPaint", "first_contentful_paint"),
    ("largestContentfulPaint", "largest_contentful_paint"),
    ("timeToInteractive", "time_to_interactive"),
    ("totalBlockingTime", "total_blocking_time"),
    ("cumulativeLayoutShift", "cumulative_layout_shift"),
    ("speedIndex", "speed_index")]

  /** Each score name with the API attribute it is read from. */
  const ScoreFields: seq<(string, string)> := [
    ("performance", "performance_score"),
    ("structure", "structure_score"),
    ("pagespeed", "pagespeed_score"),
    ("yslow", "yslow_score")]

  /** The names of equal length differ in a leading character. */
  lemma FieldsDistinct()
    ensures DistinctNames(MetricFields) && DistinctNames(ScoreFields)
  {
    assert MetricFields[4].0[0] != MetricFields[5].0[0];
    assert MetricFields[1].0[0] != MetricFields[7].0[0];
    assert MetricFields[12].0[1] != MetricFields[13].0[1];
    assert ScoreFields[1].0[0] != ScoreFields[2].0[0];
  }

  /** The result dictionaries; `attributes` is None when
      `data['data']['attributes']` cannot be read, which yields empty ones. */
  function ParseResults(attributes: Option<Metrics>): Parsed {
    match attributes
    case None => Parsed(map[], map[])
    case Some(a) => Parsed(Project(MetricFields, a), Project(ScoreFields, a))
  }

  /** Unreadable attributes give empty dictionaries; otherwise there is
      exactly one entry per metric and score name, holding its attribute's
      value, 0 when absent. */
  lemma ParsedFields(attributes: Option<Metrics>)
    ensures var r := ParseResults(attributes);
      (attributes.None? ==> r.metrics == map[] && r.scores == map[]) &&
      (attributes.Some? ==>
        r.metrics.Keys == (set i | 0 <= i < |MetricFields| :: MetricFields[i].0) &&
        r.scores.Keys == (set i | 0 <= i < |ScoreFields| :: ScoreFields[i].0) &&
        (forall i :: 0 <= i < |MetricFields| ==>
           r.metrics[MetricFields[i].0] == Get(attributes.value, MetricFields[i].1)) &&
        (forall i :: 0 <= i < |ScoreFields| ==>
           r.scores[ScoreFields[i].0] == Get(attributes.value, ScoreFields[i].1)))
  {
    if attributes.Some? {
      FieldsDistinct();
      ProjectValues(MetricFields, attributes.value);
      ProjectValues(ScoreFields, attributes.value);
    }
  }

  /** The `performance` score and the `performanceScore` metric agree. */
  lemma PerformanceScoreReportedTwice(attributes: Metrics)
    ensures var r := ParseResults(Some(attributes));
      "performance" in r.scores && "performanceScore" in r.metrics &&
      r.scores["performance"] == r.metrics["performanceScore"]
  {
    var r := ParseResults(Some(attributes));
    ParsedFields(Some(attributes));
    assert ScoreFields[0].0 == "performance" && MetricFields[0].0 == "performanceScore";
  }

  // ---------------------------------------------------------------------------
  // Polling (`_wait_for_results`)
  // ---------------------------------------------------------------------------

  /** What one poll observed: the request raised (HTTP error status, network
      failure, unreadable body), or the body's state, attributes and the
      `error` attribute when present. */
  datatype Poll =
    | PollRaised(message: string)
    | PollBody(state: string, attributes: Metrics, error: Option<string>)

  /** Why waiting failed. */
  datatype WaitError =
    | Timeout(maxWait: int)
    | TestFailed(error: Option<string>)
    | RequestFailed(message: string)

  /** The text of the exception raised for each failure. */
  function ErrorMessage(e: WaitError): string {
    match e
    case Timeout(w) => "Test timeout after " + Text.IntToString(w) + " seconds"
    case TestFailed(err) => "Test failed: " + err.GetOr("None")
    case RequestFailed(msg) => msg
  }

  /** A poll after which the loop goes on: a body in neither final state. */
  predicate Pending(p: Poll) {
    p.PollBody? && p.state != "completed" && p.state != "error"
  }

  /** The verdict of a poll that ends the loop. */
  function Decide(p: Poll): Result<Parsed, WaitError>
    requires !Pending(p)
  {
    match p
    case PollRaised(msg) => Failure(RequestFailed(msg))
    case PollBody(state, attrs, err) =>
      if state == "completed" then Success(ParseResults(Some(attrs))) else Failure(TestFailed(err))
  }

  /** The outcome of polling through `polls`, the observations of at most the
      poll budget. */
  function WaitSpec(polls: seq<Poll>, maxWait: int): Result<Parsed, WaitError>
    decreases |polls|
  {
    if polls == [] then Failure(Timeout(maxWait))
    else if Pending(polls[0]) then WaitSpec(polls[1..], maxWait)
    else Decide(polls[0])
  }

  /** The first poll that is not pending decides the outcome. */
  lemma {:induction false} WaitDecidedByFirstFinal(polls: seq<Poll>, maxWait: int, i: nat)
    requires i < |polls| && !Pending(polls[i])
    requires forall j :: 0 <= j < i ==> Pending(polls[j])
    ensures WaitSpec(polls, maxWait) == Decide(polls[i])
    decreases i
  {
    if i > 0 {
      WaitDecidedByFirstFinal(polls[1..], maxWait, i - 1);
    }
  }

  /** Polling times out exactly when every poll is pending. */
  lemma {:induction false} WaitTimeout(polls: seq<Poll>, maxWait: int)
    ensures WaitSpec(polls, maxWait) == Failure(Timeout(maxWait)) <==>
      forall j :: 0 <= j < |polls| ==> Pending(polls[j])
    decreases |polls|
  {
    if polls != [] {
      WaitTimeout(polls[1..], maxWait);
      if Pending(polls[0]) {
        assert forall j :: 1 <= j < |polls| ==> polls[j] == polls[1..][j - 1];
      }
    }
  }

  /** `_wait_for_results`: polls at most `PollBudget(maxWait)` times and
      returns the verdict of the first poll in state completed or error (or
      that raised), or a timeout. `polls` holds the observations the API would
      give, at least one per poll of the budget. */
  method WaitForResults(polls: seq<Poll>, maxWait: int) returns (r: Result<Parsed, WaitError>, polled: nat)
    requires |polls| >= PollBudget(maxWait)
    ensures polled <= PollBudget(maxWait)
    ensures r == WaitSpec(polls[..PollBudget(maxWait)], maxWait)
    ensures r == Failure(Timeout(maxWait)) ==> polled == PollBudget(maxWait)
    ensures r != Failure(Timeout(maxWait)) ==>
      0 < polled && !Pending(polls[polled - 1]) && r == Decide(polls[polled - 1]) &&
      forall j :: 0 <= j < polled - 1 ==> Pending(polls[j])
  {
    var budget := PollBudget(maxWait);
    var i := 0;
    while i < budget
      invariant 0 <= i <= budget
      invariant forall j :: 0 <= j < i ==> Pending(polls[j])
      invariant WaitSpec(polls[..budget], maxWait) == WaitSpec(polls[i..budget], maxWait)
    {
      var p := polls[i];
      assert polls[i..budget][0] == p;
      if !Pending(p) {
        assert WaitSpec(polls[i..budget], maxWait) == Decide(p);
      }
      if p.PollRaised? {
        return Failure(RequestFailed(p.message)), i + 1;
      } else if p.state == "completed" {
        return Success(ParseResults(Some(p.attributes))), i + 1;
      } else if p.state == "error" {
        return Failure(TestFailed(p.error)), i + 1;
      }
      assert polls[i..budget][1..] == polls[i + 1..budget];
      i := i + 1;
    }
    return Failure(Timeout(maxWait)), budget;
  }

  // ---------------------------------------------------------------------------
  // Suggestions (`_generate_suggestions`)
  // ---------------------------------------------------------------------------

  /** The metrics in the order their suggestions are appended. */
  const SuggestionOrder: seq<string> :=
    ["Performance Score", "Structure Score", "Page Size", "Load Time", "HTTP Requests"]

  function Parts(m: Metrics): (p: seq<seq<Suggestion>>)
    ensures PartsFor(p, SuggestionOrder)
    ensures forall k, i :: 0 <= k < |p| && 0 <= i < |p[k]| ==> p[k][i].severity in {High, Medium}
  {
    [BelowThreshold("Performance Score", Get(m, "performanceScore"), 50.0, 75.0),
     BelowThreshold("Structure Score", Get(m, "structureScore"), 50.0, 75.0),
     Exceeds("Page Size", Get(m, "totalPageSize"), 3000000.0, High),
     AboveThreshold("Load Time", Get(m, "fullyLoadedTime"), 3000.0, 5000.0),
     Exceeds("HTTP Requests", Get(m, "requests"), 100.0, Medium)]
  }

  /** At most five suggestions, in the order performance score, structure
      score, page size, load time, requests. */
  function Suggestions(m: Metrics): (r: seq<Suggestion>)
    ensures |r| <= 5
    ensures InOrder(r, SuggestionOrder)
    ensures forall i :: 0 <= i < |r| ==> r[i].severity in {High, Medium}
  {
    FlattenInOrder(Parts(m), SuggestionOrder);
    FlattenSeverities(Parts(m), {High, Medium});
    Flatten(Parts(m))
  }

  /** The rule for each metric. */
  lemma SuggestionsPerMetric(m: Metrics)
    ensures var r := Suggestions(m);
      (Suggestion("Performance Score", High) in r <==> Get(m, "performanceScore") < 50.0) &&
      (Suggestion("Performance Score", Medium) in r <==> 50.0 <= Get(m, "performanceScore") < 75.0) &&
      (Suggestion("Structure Score", High) in r <==> Get(m, "structureScore") < 50.0) &&
      (Suggestion("Structure Score", Medium) in r <==> 50.0 <= Get(m, "structureScore") < 75.0) &&
      (Suggestion("Page Size", High) in r <==> Get(m, "totalPageSize") > 3000000.0) &&
      (Suggestion("Load Time", High) in r <==> Get(m, "fullyLoadedTime") > 5000.0) &&
      (Suggestion("Load Time", Medium) in r <==> 3000.0 < Get(m, "fullyLoadedTime") <= 5000.0) &&
      (Suggestion("HTTP Requests", Medium) in r <==> Get(m, "requests") > 100.0)
  {
    var p, o := Parts(m), SuggestionOrder;
    FlattenIn(p, o, 0, Suggestion("Performance Score", High));
    FlattenIn(p, o, 0, Suggestion("Performance Score", Medium));
    FlattenIn(p, o, 1, Suggestion("Structure Score", High));
    FlattenIn(p, o, 1, Suggestion("Structure Score", Medium));
    FlattenIn(p, o, 2, Suggestion("Page Size", High));
    FlattenIn(p, o, 3, Suggestion("Load Time", High));
    FlattenIn(p, o, 3, Suggestion("Load Time", Medium));
    FlattenIn(p, o, 4, Suggestion("HTTP Requests", Medium));
  }

  // ---------------------------------------------------------------------------
  // `analyze`
  // ---------------------------------------------------------------------------

  /** The wait `analyze` allows, in seconds. */
  const MaxWait: int := 180

  /** What `analyze` returns, given the submission outcome (the test id or
      the exception) and the polls of the budget. */
  function AnalyzeSpec(url: string, apiKey: string, username: string,
                       submit: CallOutcome<string>, polls: seq<Poll>): ToolData
  {
    if apiKey == "" || username == "" then Fallback(url)
    else match submit
      case Raised(e) => FailedAnalysis(url, e)
      case Returned(testId) =>
        match WaitSpec(polls, MaxWait)
        case Failure(e) => FailedAnalysis(url, ErrorMessage(e))
        case Success(p) =>
          ToolData(true, false, url, p.metrics, p.scores, Suggestions(p.metrics),
                   Some(testId), None, None, None)
  }

  /** `analyze`: the credential gate, then submission and polling. */
  method Analyze(url: string, apiKey: string, username: string,
                 submit: CallOutcome<string>, polls: seq<Poll>) returns (r: ToolData)
    requires |polls| >= PollBudget(MaxWait)
    ensures r == AnalyzeSpec(url, apiKey, username, submit, polls[..PollBudget(MaxWait)])
  {
    if apiKey == "" || username == "" {
      return Fallback(url);
    }
    match submit {
      case Raised(e) =>
        return FailedAnalysis(url, e);
      case Returned(testId) =>
        var result, _ := WaitForResults(polls, MaxWait);
        match result {
          case Failure(e) =>
            return FailedAnalysis(url, ErrorMessage(e));
          case Success(p) =>
            return ToolData(true, false, url, p.metrics, p.scores, Suggestions(p.metrics),
                            Some(testId), None, None, None);
        }
    }
  }

  /** The fallback payload is returned exactly when a credential is missing;
      otherwise the result is a real measurement or a failure. */
  lemma AnalyzeGate(url: string, apiKey: string, username: string,
                    submit: CallOutcome<string>, polls: seq<Poll>)
    ensures var r := AnalyzeSpec(url, apiKey, username, submit, polls);
      r.url == url &&
      (r.fallback <==> apiKey == "" || username == "") &&
      (!r.fallback ==> (r.success <==> submit.Returned? && WaitSpec(polls, MaxWait).Success?)) &&
      (!r.success ==> r.metrics == map[] && r.scores == map[] && r.suggestions == [] && r.error.Some?)
  {
  }
}
