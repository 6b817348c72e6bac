/** Lighthouse agent (backend/app/agents/lighthouse_agent.py): the sub-scores
    derived from the collected Web Vitals, the weighted overall score, the
    threshold-driven suggestions and the result shape of `analyze`. The browser
    run that collects the metrics is an input outcome. */
module Lighthouse {
  import opened Wrappers
  import opened Measurements

  // ---------------------------------------------------------------------------
  // The shape every sub-score shares
  // ---------------------------------------------------------------------------

  /** `max(0, v)`. */
  function Floor0(v: real): real {
    if v < 0.0 then 0.0 else v
  }

  /** The linear middle piece: 100 at `lo`, 50 at `hi`. */
  function MiddlePiece(x: real, lo: real, hi: real): real
    requires lo < hi
  {
    100.0 - (x - lo) / (hi - lo) * 50.0
  }

  /** The tail piece before the floor: 50 at `hi`, 0 at twice `hi`. */
  function TailPiece(x: real, hi: real): real
    requires 0.0 < hi
  {
    50.0 - (x - hi) / hi * 50.0
  }

  /** A sub-score with lower threshold `lo` and upper threshold `hi`: 100 below
      `lo`, falling linearly to 50 at `hi`, then falling at slope 50/hi with a
      floor of 0. */
  function Piecewise(x: real, lo: real, hi: real): real
    requires 0.0 < lo < hi
  {
    if x < lo then 100.0
    else if x < hi then MiddlePiece(x, lo, hi)
    else Floor0(TailPiece(x, hi))
  }

  lemma DivMono(a: real, b: real, c: real)
    requires a <= b && c > 0.0
    ensures a / c <= b / c
  {
    assert b / c - a / c == (b - a) / c;
  }

  lemma DivStrict(a: real, b: real, c: real)
    requires a < b && c > 0.0
    ensures a / c < b / c
  {
    assert b / c - a / c == (b - a) / c;
  }

  /** On [lo, hi] the middle piece falls from 100 to 50. */
  lemma MiddleFacts(x: real, y: real, lo: real, hi: real)
    requires lo <= x <= y <= hi && lo < hi
    ensures 50.0 <= MiddlePiece(y, lo, hi) <= MiddlePiece(x, lo, hi) <= 100.0
  {
    var d := hi - lo;
    DivMono(0.0, x - lo, d);
    DivMono(x - lo, y - lo, d);
    DivMono(y - lo, d, d);
    DivSelf(d);
    var tx, ty := (x - lo) / d, (y - lo) / d;
    assert 0.0 <= tx <= ty <= 1.0;
    assert MiddlePiece(x, lo, hi) == 100.0 - tx * 50.0;
    assert MiddlePiece(y, lo, hi) == 100.0 - ty * 50.0;
  }

  lemma DivSelf(c: real)
    requires c > 0.0
    ensures c / c == 1.0
  {
  }

  /** From `hi` on the tail piece falls from 50. */
  lemma TailFacts(x: real, y: real, hi: real)
    requires hi <= x <= y && 0.0 < hi
    ensures TailPiece(y, hi) <= TailPiece(x, hi) <= 50.0
  {
    DivMono(0.0, x - hi, hi);
    DivMono(x - hi, y - hi, hi);
  }

  /** Every sub-score lies in [0, 100]. */
  lemma PiecewiseBounds(x: real, lo: real, hi: real)
    requires 0.0 < lo < hi
    ensures 0.0 <= Piecewise(x, lo, hi) <= 100.0
  {
    if lo <= x < hi {
      MiddleFacts(x, x, lo, hi);
    } else if hi <= x {
      TailFacts(x, x, hi);
    }
  }

  /** A slower (larger) measurement never earns a higher sub-score. */
  lemma PiecewiseMonotone(x: real, y: real, lo: real, hi: real)
    requires 0.0 < lo < hi && x <= y
    ensures Piecewise(y, lo, hi) <= Piecewise(x, lo, hi)
  {
    if x < lo {
      PiecewiseBounds(y, lo, hi);
    } else if y < hi {
      MiddleFacts(x, y, lo, hi);
    } else if x < hi {
      MiddleFacts(x, hi, lo, hi);
      TailFacts(y, y, hi);
    } else {
      TailFacts(x, y, hi);
    }
  }

  /** The pieces meet at the thresholds, so the sub-score is continuous:
      100 at `lo` from both sides, and 50 at `hi` from both sides. */
  lemma PiecewiseContinuous(lo: real, hi: real)
    requires 0.0 < lo < hi
    ensures MiddlePiece(lo, lo, hi) == 100.0 == Piecewise(lo, lo, hi)
    ensures MiddlePiece(hi, lo, hi) == 50.0 == TailPiece(hi, hi) == Piecewise(hi, lo, hi)
  {
    assert (hi - lo) / (hi - lo) == 1.0;
  }

  /** The 0 floor is reached at twice the upper threshold and kept beyond it. */
  lemma PiecewiseFloor(x: real, lo: real, hi: real)
    requires 0.0 < lo < hi
    ensures Piecewise(x, lo, hi) == 0.0 <==> x >= 2.0 * hi
  {
    assert hi / hi == 1.0;
    if x >= 2.0 * hi {
      DivMono(hi, x - hi, hi);
    } else if x >= hi {
      DivStrict(x - hi, hi, hi);
    } else if x >= lo {
      MiddleFacts(x, x, lo, hi);
    }
  }

  // ---------------------------------------------------------------------------
  // The four sub-scores and the overall score (`_calculate_scores`)
  // ---------------------------------------------------------------------------

  /** First Contentful Paint: 1800 ms and 3000 ms. */
  function FcpScore(fcp: real): (r: real)
    ensures 0.0 <= r <= 100.0
    ensures r == Piecewise(fcp, 1800.0, 3000.0)
  {
    PiecewiseBounds(fcp, 1800.0, 3000.0);
    if fcp < 1800.0 then 100.0
    else if fcp < 3000.0 then 100.0 - (fcp - 1800.0) / 1200.0 * 50.0
    else Floor0(50.0 - (fcp - 3000.0) / 3000.0 * 50.0)
  }

  /** Largest Contentful Paint: 2500 ms and 4000 ms. */
  function LcpScore(lcp: real): (r: real)
    ensures 0.0 <= r <= 100.0
    ensures r == Piecewise(lcp, 2500.0, 4000.0)
  {
    PiecewiseBounds(lcp, 2500.0, 4000.0);
    if lcp < 2500.0 then 100.0
    else if lcp < 4000.0 then 100.0 - (lcp - 2500.0) / 1500.0 * 50.0
    else Floor0(50.0 - (lcp - 4000.0) / 4000.0 * 50.0)
  }

  /** Cumulative Layout Shift: 0.1 and 0.25. */
  function ClsScore(cls: real): (r: real)
    ensures 0.0 <= r <= 100.0
    ensures r == Piecewise(cls, 0.1, 0.25)
  {
    PiecewiseBounds(cls, 0.1, 0.25);
    if cls < 0.1 then 100.0
    else if cls < 0.25 then 100.0 - (cls - 0.1) / 0.15 * 50.0
    else Floor0(50.0 - (cls - 0.25) / 0.25 * 50.0)
  }

  /** Time To First Byte: 800 ms and 1800 ms. */
  function TtfbScore(ttfb: real): (r: real)
    ensures 0.0 <= r <= 100.0
    ensures r == Piecewise(ttfb, 800.0, 1800.0)
  {
    PiecewiseBounds(ttfb, 800.0, 1800.0);
    if ttfb < 800.0 then 100.0
    else if ttfb < 1800.0 then 100.0 - (ttfb - 800.0) / 1000.0 * 50.0
    else Floor0(50.0 - (ttfb - 1800.0) / 1800.0 * 50.0)
  }

  /** The weights 0.1, 0.25, 0.15, 0.1 of the four sub-scores plus 40% of a
      fixed placeholder of 50. */
  function OverallScore(fcpScore: real, lcpScore: real, clsScore: real, ttfbScore: real): real {
    fcpScore * 0.1 + lcpScore * 0.25 + clsScore * 0.15 + ttfbScore * 0.1 + 50.0 * 0.4
  }

  const ScoreKeys: set<string> := {"fcp_score", "lcp_score", "cls_score", "ttfb_score", "performance_score"}

  /** The scores dictionary: each sub-score from its metric (missing metrics
      read as 0) and the overall score, which always lies in [20, 80]. */
  function CalculateScores(m: Metrics): (r: Metrics)
    ensures r.Keys == ScoreKeys
    ensures r["fcp_score"] == FcpScore(Get(m, "fcp")) && r["lcp_score"] == LcpScore(Get(m, "lcp"))
    ensures r["cls_score"] == ClsScore(Get(m, "cls")) && r["ttfb_score"] == TtfbScore(Get(m, "ttfb"))
    ensures r["performance_score"] ==
      OverallScore(r["fcp_score"], r["lcp_score"], r["cls_score"], r["ttfb_score"])
    ensures 20.0 <= r["performance_score"] <= 80.0
  {
    var f := FcpScore(Get(m, "fcp"));
    var l := LcpScore(Get(m, "lcp"));
    var c := ClsScore(Get(m, "cls"));
    var t := TtfbScore(Get(m, "ttfb"));
    map["fcp_score" := f, "lcp_score" := l, "cls_score" := c, "ttfb_score" := t,
        "performance_score" := OverallScore(f, l, c, t)]
  }

  /** With every metric at its best the overall score is 80, its maximum. */
  lemma FastPageScore()
    ensures CalculateScores(map["fcp" := 0.0, "lcp" := 0.0, "cls" := 0.0, "ttfb" := 0.0])["performance_score"] == 80.0
  {
  }

  // ---------------------------------------------------------------------------
  // Suggestions (`_generate_suggestions`)
  // ---------------------------------------------------------------------------

  /** The metrics in the order their suggestions are appended. */
  const SuggestionOrder: seq<string> := ["FCP", "LCP", "CLS", "TTFB", "Resource Size"]

  const TotalSizeLimit: real := 3000000.0

  /** One part per metric of `SuggestionOrder`. */
  function Parts(m: Metrics): (p: seq<seq<Suggestion>>)
    ensures PartsFor(p, SuggestionOrder)
    ensures forall k, i :: 0 <= k < |p| && 0 <= i < |p[k]| ==> p[k][i].severity in {High, Medium}
  {
    [AboveThreshold("FCP", Get(m, "fcp"), 1800.0, 3000.0),
     AboveThreshold("LCP", Get(m, "lcp"), 2500.0, 4000.0),
     AboveThreshold("CLS", Get(m, "cls"), 0.1, 0.25),
     AboveThreshold("TTFB", Get(m, "ttfb"), 800.0, 1800.0),
     Exceeds("Resource Size", Get(m, "totalResourceSize"), TotalSizeLimit, Medium)]
  }

  /** The suggestions for one set of metrics: at most one each for FCP, LCP,
      CLS, TTFB and the resource size, in that order; only high and medium
      severities occur. */
  function Suggestions(m: Metrics): (r: seq<Suggestion>)
    ensures |r| <= 5
    ensures InOrder(r, SuggestionOrder)
    ensures forall i :: 0 <= i < |r| ==> r[i].severity in {High, Medium}
  {
    FlattenInOrder(Parts(m), SuggestionOrder);
    FlattenSeverities(Parts(m), {High, Medium});
    Flatten(Parts(m))
  }

  /** Which severity each metric gets: high strictly above its upper
      threshold, medium strictly above its lower one, otherwise none. */
  lemma SuggestionsPerMetric(m: Metrics)
    ensures var r := Suggestions(m);
      (Suggestion("FCP", High) in r <==> Get(m, "fcp") > 3000.0) &&
      (Suggestion("FCP", Medium) in r <==> 1800.0 < Get(m, "fcp") <= 3000.0) &&
      (Suggestion("LCP", High) in r <==> Get(m, "lcp") > 4000.0) &&
      (Suggestion("LCP", Medium) in r <==> 2500.0 < Get(m, "lcp") <= 4000.0) &&
      (Suggestion("CLS", High) in r <==> Get(m, "cls") > 0.25) &&
      (Suggestion("CLS", Medium) in r <==> 0.1 < Get(m, "cls") <= 0.25) &&
      (Suggestion("TTFB", High) in r <==> Get(m, "ttfb") > 1800.0) &&
      (Suggestion("TTFB", Medium) in r <==> 800.0 < Get(m, "ttfb") <= 1800.0)
  {
    var p, o := Parts(m), SuggestionOrder;
    FlattenIn(p, o, 0, Suggestion("FCP", High));
    FlattenIn(p, o, 0, Suggestion("FCP", Medium));
    FlattenIn(p, o, 1, Suggestion("LCP", High));
    FlattenIn(p, o, 1, Suggestion("LCP", Medium));
    FlattenIn(p, o, 2, Suggestion("CLS", High));
    FlattenIn(p, o, 2, Suggestion("CLS", Medium));
    FlattenIn(p, o, 3, Suggestion("TTFB", High));
    FlattenIn(p, o, 3, Suggestion("TTFB", Medium));
  }

  /** A resource-size suggestion is present exactly when the total transfer
      size exceeds 3000000 bytes, and then it is the last one. */
  lemma SuggestionsResourceLast(m: Metrics)
    ensures var r := Suggestions(m);
      (|r| > 0 && r[|r| - 1] == Suggestion("Resource Size", Medium)) <==>
      Get(m, "totalResourceSize") > TotalSizeLimit
    ensures Suggestion("Resource Size", Medium) in Suggestions(m) <==>
      Get(m, "totalResourceSize") > TotalSizeLimit
  {
    var r, p, o := Suggestions(m), Parts(m), SuggestionOrder;
    FlattenIn(p, o, 4, Suggestion("Resource Size", Medium));
    InOrderLast(r, o, Suggestion("Resource Size", Medium));
  }

  // ---------------------------------------------------------------------------
  // `analyze`
  // ---------------------------------------------------------------------------

  /** The result of one Lighthouse run. `capture` is what the browser run gave:
      the collected metrics, or the exception it raised. */
  function Analyze(url: string, capture: CallOutcome<Metrics>): (r: ToolData)
    ensures r.url == url && !r.fallback
    ensures r.success <==> capture.Returned?
    ensures r.success ==> (r.metrics == capture.value && r.scores == CalculateScores(r.metrics) &&
                           r.suggestions == Suggestions(r.metrics) && r.error.None?)
    ensures !r.success ==> (r.metrics == map[] && r.scores == map[] && r.suggestions == [] &&
                            r.error == Some(capture.message))
  {
    match capture
    case Returned(m) =>
      ToolData(true, false, url, m, CalculateScores(m), Suggestions(m), None, None, None, None)
    case Raised(e) => FailedAnalysis(url, e)
  }
}
