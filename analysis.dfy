/** Analysis agent (backend/app/agents/analysis_agent.py): joins the per-URL
    tool records into one record per site, averages the values the tools
    report, ranks the main site against its competitors, renders the summary
    texts and produces the rule-based recommendations. The LLM call is an
    input outcome. */
module Analysis {
  import opened Wrappers
  import opened Measurements
  import Text

  // ---------------------------------------------------------------------------
  // The aggregated record
  // ---------------------------------------------------------------------------

  /** The values kept from a successful Lighthouse result. */
  datatype LighthouseBlock = LighthouseBlock(fcp: real, lcp: real, cls: real, ttfb: real, performanceScore: real)

  /** The values kept from a successful, non-fallback WebPageTest result. */
  datatype WebPageTestBlock =
    WebPageTestBlock(loadTime: real, ttfb: real, speedIndex: real, firstContentfulPaint: real, performanceScore: real)

  /** The values kept from a successful, non-fallback GTmetrix result. */
  datatype GtmetrixBlock =
    GtmetrixBlock(performanceScore: real, fullyLoadedTime: real, totalPageSize: real, requests: real, speedIndex: real)

  /** The `averages` dictionary; an absent key is None. */
  datatype Averages = Averages(avgFcp: Option<real>, avgLcp: Option<real>, avgPerformanceScore: Option<real>)

  /** One site: a block per tool that contributed, and the averages. */
  datatype SiteMetrics = SiteMetrics(
    lighthouse: Option<LighthouseBlock>,
    webpagetest: Option<WebPageTestBlock>,
    gtmetrix: Option<GtmetrixBlock>,
    averages: Averages)

  /** A competitor's site record tagged with its URL. */
  datatype Competitor = Competitor(url: string, site: SiteMetrics)

  datatype ComparisonEntry = ComparisonEntry(url: string, score: real, difference: real)

  datatype Comparisons = Comparisons(rank: int, totalSites: int, betterThan: seq<ComparisonEntry>, worseThan: seq<ComparisonEntry>)

  datatype Summary = Summary(overall: string, ranking: string, keyMetrics: string)

  /** The result of `aggregate_metrics`; `main_site` and `comparisons` are
      None where the source leaves `{}`. */
  datatype Aggregated = Aggregated(
    mainSite: Option<SiteMetrics>,
    competitors: seq<Competitor>,
    comparisons: Option<Comparisons>,
    summary: Summary)

  /** A recommendation dictionary; keys the producer left out are None. */
  datatype Recommendation = Recommendation(
    priority: Option<string>,
    category: Option<string>,
    title: Option<string>,
    description: Option<string>,
    impact: Option<string>)

  // ---------------------------------------------------------------------------
  // Picking records
  // ---------------------------------------------------------------------------

  /** `next((r for r in records if r.get('is_main')), None)`. */
  function FirstMain<T>(records: seq<UrlRecord<T>>): Option<UrlRecord<T>>
    decreases |records|
  {
    if records == [] then None
    else if records[0].isMain then Some(records[0])
    else FirstMain(records[1..])
  }

  /** The first record flagged main; absent exactly when none is. */
  lemma {:induction false} FirstMainSpec<T>(records: seq<UrlRecord<T>>)
    ensures var r := FirstMain(records);
      r.None? <==> forall i :: 0 <= i < |records| ==> !records[i].isMain
    ensures var r := FirstMain(records);
      r.Some? ==> exists i :: 0 <= i < |records| && records[i] == r.value && r.value.isMain &&
                                   forall j :: 0 <= j < i ==> !records[j].isMain
    decreases |records|
  {
    if records != [] && !records[0].isMain {
      FirstMainSpec(records[1..]);
      assert forall i :: 1 <= i < |records| ==> records[i] == records[1..][i - 1];
      var r := FirstMain(records[1..]);
      if r.Some? {
        var k :| 0 <= k < |records[1..]| && records[1..][k] == r.value && r.value.isMain &&
                 forall j :: 0 <= j < k ==> !records[1..][j].isMain;
        assert records[k + 1] == r.value;
      }
    }
  }

  /** `next((r for r in records if r['url'] == url), None)`. */
  function FirstWithUrl(records: seq<ToolRecord>, url: string): Option<ToolRecord>
    decreases |records|
  {
    if records == [] then None
    else if records[0].url == url then Some(records[0])
    else FirstWithUrl(records[1..], url)
  }

  /** The first record with the URL; absent exactly when none has it. */
  lemma {:induction false} FirstWithUrlSpec(records: seq<ToolRecord>, url: string)
    ensures var r := FirstWithUrl(records, url);
      r.None? <==> forall i :: 0 <= i < |records| ==> records[i].url != url
    ensures var r := FirstWithUrl(records, url);
      r.Some? ==> exists i :: 0 <= i < |records| && records[i] == r.value && r.value.url == url &&
                                   forall j :: 0 <= j < i ==> records[j].url != url
    decreases |records|
  {
    if records != [] && records[0].url != url {
      FirstWithUrlSpec(records[1..], url);
      assert forall i :: 1 <= i < |records| ==> records[i] == records[1..][i - 1];
      var r := FirstWithUrl(records[1..], url);
      if r.Some? {
        var k :| 0 <= k < |records[1..]| && records[1..][k] == r.value && r.value.url == url &&
                 forall j :: 0 <= j < k ==> records[1..][j].url != url;
        assert records[k + 1] == r.value;
      }
    }
  }

  /** `[r['url'] for r in lighthouse if not r.get('is_main')]`. */
  function CompetitorUrls(records: seq<ToolRecord>): seq<string>
    decreases |records|
  {
    if records == [] then []
    else
      var rest := CompetitorUrls(records[1..]);
      if records[0].isMain then rest else [records[0].url] + rest
  }

  /** Exactly the URLs of the records not flagged main. */
  lemma {:induction false} CompetitorUrlsSpec(records: seq<ToolRecord>)
    ensures |CompetitorUrls(records)| <= |records|
    ensures forall u :: u in CompetitorUrls(records) <==>
                        exists i :: 0 <= i < |records| && !records[i].isMain && records[i].url == u
    decreases |records|
  {
    if records != [] {
      CompetitorUrlsSpec(records[1..]);
      assert forall i :: 1 <= i < |records| ==> records[i] == records[1..][i - 1];
      forall u | exists i :: 0 <= i < |records| && !records[i].isMain && records[i].url == u
        ensures u in CompetitorUrls(records)
      {
        var i :| 0 <= i < |records| && !records[i].isMain && records[i].url == u;
        if i > 0 {
          assert records[1..][i - 1] == records[i];
        }
      }
    }
  }

  /** The number of records flagged as the main site. */
  function MainCount(records: seq<ToolRecord>): nat
    decreases |records|
  {
    if records == [] then 0 else (if records[0].isMain then 1 else 0) + MainCount(records[1..])
  }

  /** Every record is either the main site or yields one competitor URL. */
  lemma {:induction false} CompetitorUrlsCount(records: seq<ToolRecord>)
    ensures |CompetitorUrls(records)| + MainCount(records) == |records|
    decreases |records|
  {
    if records != [] {
      CompetitorUrlsCount(records[1..]);
    }
  }

  // ---------------------------------------------------------------------------
  // One site (`_aggregate_single_site`, `_calculate_averages`)
  // ---------------------------------------------------------------------------

  function Sum(xs: seq<real>): real
    decreases |xs|
  {
    if xs == [] then 0.0 else xs[0] + Sum(xs[1..])
  }

  /** A sum of values within [lo, hi] lies within [n * lo, n * hi]. */
  lemma {:induction false} SumBounds(xs: seq<real>, lo: real, hi: real)
    requires forall i :: 0 <= i < |xs| ==> lo <= xs[i] <= hi
    ensures |xs| as real * lo <= Sum(xs) <= |xs| as real * hi
    decreases |xs|
  {
    if xs != [] {
      SumBounds(xs[1..], lo, hi);
      var n := |xs[1..]| as real;
      assert |xs| as real * lo == n * lo + lo;
      assert |xs| as real * hi == n * hi + hi;
    }
  }

  /** `sum(xs) / len(xs)`. */
  function Mean(xs: seq<real>): real
    requires xs != []
  {
    Sum(xs) / |xs| as real
  }

  /** A mean of values within [lo, hi] lies within [lo, hi]. */
  lemma MeanBounds(xs: seq<real>, lo: real, hi: real)
    requires xs != []
    requires forall i :: 0 <= i < |xs| ==> lo <= xs[i] <= hi
    ensures lo <= Mean(xs) <= hi
  {
    SumBounds(xs, lo, hi);
    DivideBounds(Sum(xs), |xs| as real, lo, hi);
  }

  lemma DivideBounds(s: real, n: real, lo: real, hi: real)
    requires n > 0.0 && n * lo <= s <= n * hi
    ensures lo <= s / n <= hi
  {
    assert s / n - lo == (s - n * lo) / n;
    assert hi - s / n == (n * hi - s) / n;
  }

  /** `fcp_values`: the nonzero Lighthouse and WebPageTest FCP values. */
  function FcpValues(lh: Option<LighthouseBlock>, wpt: Option<WebPageTestBlock>): seq<real> {
    (if lh.Some? && lh.value.fcp != 0.0 then [lh.value.fcp] else []) +
    (if wpt.Some? && wpt.value.firstContentfulPaint != 0.0 then [wpt.value.firstContentfulPaint] else [])
  }

  /** `perf_scores`: the nonzero performance scores of the three tools. */
  function PerfScores(lh: Option<LighthouseBlock>, wpt: Option<WebPageTestBlock>, gtm: Option<GtmetrixBlock>): seq<real> {
    (if lh.Some? && lh.value.performanceScore != 0.0 then [lh.value.performanceScore] else []) +
    (if wpt.Some? && wpt.value.performanceScore != 0.0 then [wpt.value.performanceScore] else []) +
    (if gtm.Some? && gtm.value.performanceScore != 0.0 then [gtm.value.performanceScore] else [])
  }

  function MeanOrAbsent(xs: seq<real>): Option<real> {
    if xs == [] then None else Some(Mean(xs))
  }

  function CalculateAverages(lh: Option<LighthouseBlock>, wpt: Option<WebPageTestBlock>, gtm: Option<GtmetrixBlock>): Averages {
    Averages(
      MeanOrAbsent(FcpValues(lh, wpt)),
      if lh.Some? then Some(lh.value.lcp) else None,
      MeanOrAbsent(PerfScores(lh, wpt, gtm)))
  }

  /** `avg_fcp` is present exactly when Lighthouse or WebPageTest reports a
      nonzero FCP, and is then the mean of those that do. */
  lemma AverageFcp(lh: Option<LighthouseBlock>, wpt: Option<WebPageTestBlock>, gtm: Option<GtmetrixBlock>)
    ensures var a := CalculateAverages(lh, wpt, gtm).avgFcp;
      var l := lh.Some? && lh.value.fcp != 0.0;
      var w := wpt.Some? && wpt.value.firstContentfulPaint != 0.0;
      (a.Some? <==> l || w) &&
      (l && w ==> a == Some((lh.value.fcp + wpt.value.firstContentfulPaint) / 2.0)) &&
      (l && !w ==> a == Some(lh.value.fcp)) &&
      (!l && w ==> a == Some(wpt.value.firstContentfulPaint))
  {
    var xs := FcpValues(lh, wpt);
    var l := lh.Some? && lh.value.fcp != 0.0;
    var w := wpt.Some? && wpt.value.firstContentfulPaint != 0.0;
    if l && w {
      assert xs == [lh.value.fcp, wpt.value.firstContentfulPaint];
      assert Sum(xs) == lh.value.fcp + (wpt.value.firstContentfulPaint + Sum([]));
      assert |xs| == 2;
      assert Mean(xs) == (lh.value.fcp + wpt.value.firstContentfulPaint) / 2.0;
    } else if l {
      assert xs == [lh.value.fcp];
      assert Sum(xs) == lh.value.fcp + Sum([]);
      assert |xs| == 1;
      assert Mean(xs) == lh.value.fcp;
    } else if w {
      assert xs == [wpt.value.firstContentfulPaint];
      assert Sum(xs) == wpt.value.firstContentfulPaint + Sum([]);
      assert |xs| == 1;
      assert Mean(xs) == wpt.value.firstContentfulPaint;
    }
  }

  /** `avg_lcp` is present exactly when there is a Lighthouse block, and is its
      LCP even when that is 0. */
  lemma AverageLcp(lh: Option<LighthouseBlock>, wpt: Option<WebPageTestBlock>, gtm: Option<GtmetrixBlock>)
    ensures var a := CalculateAverages(lh, wpt, gtm).avgLcp;
      (a.Some? <==> lh.Some?) && (lh.Some? ==> a.value == lh.value.lcp)
  {
  }

  /** `avg_performance_score` is present exactly when some tool reports a
      nonzero score, and then lies within any bounds all of those respect. */
  lemma AveragePerformance(lh: Option<LighthouseBlock>, wpt: Option<WebPageTestBlock>, gtm: Option<GtmetrixBlock>,
                            lo: real, hi: real)
    requires forall x :: x in PerfScores(lh, wpt, gtm) ==> lo <= x <= hi
    ensures var a := CalculateAverages(lh, wpt, gtm).avgPerformanceScore;
      (a.Some? <==> (lh.Some? && lh.value.performanceScore != 0.0) ||
                    (wpt.Some? && wpt.value.performanceScore != 0.0) ||
                    (gtm.Some? && gtm.value.performanceScore != 0.0)) &&
      (a.Some? ==> lo <= a.value <= hi)
  {
    var xs := PerfScores(lh, wpt, gtm);
    if xs != [] {
      assert forall i :: 0 <= i < |xs| ==> xs[i] in xs;
      MeanBounds(xs, lo, hi);
    }
  }

  /** The mean of one, two or three values. */
  lemma MeanOfFew(xs: seq<real>)
    requires 1 <= |xs| <= 3
    ensures |xs| == 1 ==> Mean(xs) == xs[0]
    ensures |xs| == 2 ==> Mean(xs) == (xs[0] + xs[1]) / 2.0
    ensures |xs| == 3 ==> Mean(xs) == (xs[0] + xs[1] + xs[2]) / 3.0
  {
    assert Sum(xs) == xs[0] + Sum(xs[1..]);
    if |xs| >= 2 {
      assert Sum(xs[1..]) == xs[1] + Sum(xs[2..]);
      if |xs| == 3 {
        assert Sum(xs[2..]) == xs[2] + Sum(xs[3..]);
      }
    }
  }

  /** `avg_performance_score` is the mean of the scores of the tools that
      report a nonzero one, in Lighthouse, WebPageTest, GTmetrix order. */
  lemma AveragePerformanceValue(lh: Option<LighthouseBlock>, wpt: Option<WebPageTestBlock>, gtm: Option<GtmetrixBlock>)
    ensures var a := CalculateAverages(lh, wpt, gtm).avgPerformanceScore;
      var l := lh.Some? && lh.value.performanceScore != 0.0;
      var w := wpt.Some? && wpt.value.performanceScore != 0.0;
      var g := gtm.Some? && gtm.value.performanceScore != 0.0;
      (!l && !w && !g ==> a.None?) &&
      (l && w && g ==> a == Some((lh.value.performanceScore + wpt.value.performanceScore + gtm.value.performanceScore) / 3.0)) &&
      (l && w && !g ==> a == Some((lh.value.performanceScore + wpt.value.performanceScore) / 2.0)) &&
      (l && !w && g ==> a == Some((lh.value.performanceScore + gtm.value.performanceScore) / 2.0)) &&
      (!l && w && g ==> a == Some((wpt.value.performanceScore + gtm.value.performanceScore) / 2.0)) &&
      (l && !w && !g ==> a == Some(lh.value.performanceScore)) &&
      (!l && w && !g ==> a == Some(wpt.value.performanceScore)) &&
      (!l && !w && g ==> a == Some(gtm.value.performanceScore))
  {
    var xs := PerfScores(lh, wpt, gtm);
    if xs != [] {
      MeanOfFew(xs);
    }
  }

  /** Whether a tool record contributes a block: its result succeeded and,
      where the source checks it, is not a fallback. */
  predicate Contributes(record: Option<ToolRecord>, checkFallback: bool) {
    record.Some? && record.value.data.success && !(checkFallback && record.value.data.fallback)
  }

  /** `_aggregate_single_site`: a block per contributing tool (Lighthouse has
      no fallback check), each value read with default 0, and the averages
      over the blocks. */
  function AggregateSingleSite(lh: Option<ToolRecord>, wpt: Option<ToolRecord>, gtm: Option<ToolRecord>): SiteMetrics {
    var lhBlock :=
      if Contributes(lh, false) then
        var m, s := lh.value.data.metrics, lh.value.data.scores;
        Some(LighthouseBlock(Get(m, "fcp"), Get(m, "lcp"), Get(m, "cls"), Get(m, "ttfb"), Get(s, "performance_score")))
      else None;
    var wptBlock :=
      if Contributes(wpt, true) then
        var m, s := wpt.value.data.metrics, wpt.value.data.scores;
        Some(WebPageTestBlock(Get(m, "loadTime"), Get(m, "TTFB"), Get(m, "speedIndex"),
                              Get(m, "firstContentfulPaint"), Get(s, "performance")))
      else None;
    var gtmBlock :=
      if Contributes(gtm, true) then
        var m := gtm.value.data.metrics;
        Some(GtmetrixBlock(Get(m, "performanceScore"), Get(m, "fullyLoadedTime"), Get(m, "totalPageSize"),
                           Get(m, "requests"), Get(m, "speedIndex")))
      else None;
    SiteMetrics(lhBlock, wptBlock, gtmBlock, CalculateAverages(lhBlock, wptBlock, gtmBlock))
  }

  /** A block exactly for each contributing tool, its values read from the
      record with default 0, and the averages taken over those blocks. */
  lemma SingleSiteBlocks(lh: Option<ToolRecord>, wpt: Option<ToolRecord>, gtm: Option<ToolRecord>)
    ensures var r := AggregateSingleSite(lh, wpt, gtm);
      (r.lighthouse.Some? <==> Contributes(lh, false)) &&
      (r.webpagetest.Some? <==> Contributes(wpt, true)) &&
      (r.gtmetrix.Some? <==> Contributes(gtm, true))
    ensures var r := AggregateSingleSite(lh, wpt, gtm);
      r.lighthouse.Some? ==>
        r.lighthouse.value.fcp == Get(lh.value.data.metrics, "fcp") &&
        r.lighthouse.value.lcp == Get(lh.value.data.metrics, "lcp") &&
        r.lighthouse.value.performanceScore == Get(lh.value.data.scores, "performance_score")
    ensures var r := AggregateSingleSite(lh, wpt, gtm);
      r.webpagetest.Some? ==>
        r.webpagetest.value.firstContentfulPaint == Get(wpt.value.data.metrics, "firstContentfulPaint") &&
        r.webpagetest.value.performanceScore == Get(wpt.value.data.scores, "performance")
    ensures var r := AggregateSingleSite(lh, wpt, gtm);
      r.gtmetrix.Some? ==> r.gtmetrix.value.performanceScore == Get(gtm.value.data.metrics, "performanceScore")
    ensures var r := AggregateSingleSite(lh, wpt, gtm);
      r.averages == CalculateAverages(r.lighthouse, r.webpagetest, r.gtmetrix)
  {
  }

  /** A failed or fallback WebPageTest or GTmetrix result changes nothing:
      the site record is the one built without it. */
  lemma NonContributingIgnored(lh: Option<ToolRecord>, wpt: Option<ToolRecord>, gtm: Option<ToolRecord>)
    ensures !Contributes(wpt, true) ==> AggregateSingleSite(lh, wpt, gtm) == AggregateSingleSite(lh, None, gtm)
    ensures !Contributes(gtm, true) ==> AggregateSingleSite(lh, wpt, gtm) == AggregateSingleSite(lh, wpt, None)
    ensures !Contributes(lh, false) ==> AggregateSingleSite(lh, wpt, gtm) == AggregateSingleSite(None, wpt, gtm)
  {
  }

  // ---------------------------------------------------------------------------
  // Comparisons (`_generate_comparisons`)
  // ---------------------------------------------------------------------------

  /** `site.get('averages', {}).get('avg_performance_score', 0)`. */
  function PerformanceOf(site: Option<SiteMetrics>): real {
    if site.Some? then site.value.averages.avgPerformanceScore.GetOr(0.0) else 0.0
  }

  function CompetitorScore(c: Competitor): real {
    PerformanceOf(Some(c.site))
  }

  /** The competitors the main site beats, in order. */
  function BetterThan(mainPerf: real, cs: seq<Competitor>): seq<ComparisonEntry>
    decreases |cs|
  {
    if cs == [] then []
    else
      var c := cs[|cs| - 1];
      BetterThan(mainPerf, cs[..|cs| - 1]) +
      (if mainPerf > CompetitorScore(c) then [ComparisonEntry(c.url, CompetitorScore(c), mainPerf - CompetitorScore(c))] else [])
  }

  /** The competitors that beat or tie the main site, in order. */
  function WorseThan(mainPerf: real, cs: seq<Competitor>): seq<ComparisonEntry>
    decreases |cs|
  {
    if cs == [] then []
    else
      var c := cs[|cs| - 1];
      WorseThan(mainPerf, cs[..|cs| - 1]) +
      (if mainPerf > CompetitorScore(c) then [] else [ComparisonEntry(c.url, CompetitorScore(c), CompetitorScore(c) - mainPerf)])
  }

  function ComparisonsSpec(mainPerf: real, cs: seq<Competitor>): Option<Comparisons> {
    if cs == [] then None
    else Some(Comparisons(1 + |WorseThan(mainPerf, cs)|, |cs| + 1, BetterThan(mainPerf, cs), WorseThan(mainPerf, cs)))
  }

  /** Each competitor lands in exactly one list; the main site beats the
      better-than entries strictly and a tie counts against it; every
      difference is nonnegative and every entry keeps its competitor's URL. */
  lemma {:induction false} ComparisonsPartition(mainPerf: real, cs: seq<Competitor>)
    ensures |BetterThan(mainPerf, cs)| + |WorseThan(mainPerf, cs)| == |cs|
    ensures forall e :: e in BetterThan(mainPerf, cs) ==>
      e.score < mainPerf && e.difference == mainPerf - e.score && e.difference > 0.0
    ensures forall e :: e in WorseThan(mainPerf, cs) ==>
      e.score >= mainPerf && e.difference == e.score - mainPerf && e.difference >= 0.0
    ensures forall e :: e in BetterThan(mainPerf, cs) + WorseThan(mainPerf, cs) ==>
      exists i :: 0 <= i < |cs| && cs[i].url == e.url && CompetitorScore(cs[i]) == e.score
    decreases |cs|
  {
    if cs != [] {
      var init := cs[..|cs| - 1];
      ComparisonsPartition(mainPerf, init);
      assert forall i :: 0 <= i < |init| ==> init[i] == cs[i];
      var b, w := BetterThan(mainPerf, cs), WorseThan(mainPerf, cs);
      var b0, w0 := BetterThan(mainPerf, init), WorseThan(mainPerf, init);
      forall e: ComparisonEntry | e in b + w
        ensures exists i :: 0 <= i < |cs| && cs[i].url == e.url && CompetitorScore(cs[i]) == e.score
      {
        if e in b0 + w0 {
          var i :| 0 <= i < |init| && init[i].url == e.url && CompetitorScore(init[i]) == e.score;
          assert cs[i] == init[i];
        } else {
          assert cs[|cs| - 1].url == e.url && CompetitorScore(cs[|cs| - 1]) == e.score;
        }
      }
    }
  }

  /** The number of competitors whose score is at least the main site's. */
  function CountAtLeast(mainPerf: real, cs: seq<Competitor>): nat
    decreases |cs|
  {
    if cs == [] then 0 else (if CompetitorScore(cs[0]) >= mainPerf then 1 else 0) + CountAtLeast(mainPerf, cs[1..])
  }

  lemma {:induction false} CountAtLeastSnoc(mainPerf: real, cs: seq<Competitor>, c: Competitor)
    ensures CountAtLeast(mainPerf, cs + [c]) == CountAtLeast(mainPerf, cs) + (if CompetitorScore(c) >= mainPerf then 1 else 0)
    decreases |cs|
  {
    if cs != [] {
      assert (cs + [c])[1..] == cs[1..] + [c];
      CountAtLeastSnoc(mainPerf, cs[1..], c);
    }
  }

  /** The rank is one more than the number of competitors scoring at least as
      much as the main site, ties included. */
  lemma {:induction false} RankCountsTies(mainPerf: real, cs: seq<Competitor>)
    ensures |WorseThan(mainPerf, cs)| == CountAtLeast(mainPerf, cs)
    decreases |cs|
  {
    if cs != [] {
      var init := cs[..|cs| - 1];
      RankCountsTies(mainPerf, init);
      assert cs == init + [cs[|cs| - 1]];
      CountAtLeastSnoc(mainPerf, init, cs[|cs| - 1]);
    }
  }

  /** `_generate_comparisons`: None (the source's `{}`) without competitors;
      otherwise the main site starts at rank 1 and drops one place for every
      competitor that is not strictly worse. A missing score counts as 0. */
  method GenerateComparisons(mainSite: Option<SiteMetrics>, competitors: seq<Competitor>) returns (r: Option<Comparisons>)
    ensures r == ComparisonsSpec(PerformanceOf(mainSite), competitors)
    ensures r.Some? ==> r.value.rank == 1 + CountAtLeast(PerformanceOf(mainSite), competitors)
    ensures r.Some? ==> (r.value.totalSites == |competitors| + 1 &&
      |r.value.betterThan| + |r.value.worseThan| == |competitors| && 1 <= r.value.rank <= r.value.totalSites)
  {
    if competitors == [] {
      return None;
    }
    var mainPerf := PerformanceOf(mainSite);
    var rank := 1;
    var better: seq<ComparisonEntry> := [];
    var worse: seq<ComparisonEntry> := [];
    for i := 0 to |competitors|
      invariant better == BetterThan(mainPerf, competitors[..i])
      invariant worse == WorseThan(mainPerf, competitors[..i])
      invariant rank == 1 + |worse|
    {
      var comp := competitors[i];
      var compPerf := PerformanceOf(Some(comp.site));
      assert competitors[..i + 1][..i] == competitors[..i] && competitors[..i + 1][i] == comp;
      assert compPerf == CompetitorScore(comp);
      if mainPerf > compPerf {
        better := better + [ComparisonEntry(comp.url, compPerf, mainPerf - compPerf)];
      } else {
        worse := worse + [ComparisonEntry(comp.url, compPerf, compPerf - mainPerf)];
        rank := rank + 1;
      }
    }
    assert competitors[..|competitors|] == competitors;
    RankCountsTies(mainPerf, competitors);
    ComparisonsPartition(mainPerf, competitors);
    return Some(Comparisons(rank, |competitors| + 1, better, worse));
  }

  // ---------------------------------------------------------------------------
  // Summary texts (`_generate_summary`, `_get_performance_rating`,
  // `_summarize_key_metrics`)
  // ---------------------------------------------------------------------------

  const Excellent: string := "Excellent - Your site has outstanding performance!"
  const Good: string := "Good - Your site performs well with room for optimization."
  const Fair: string := "Fair - Your site needs performance improvements."
  const Poor: string := "Poor - Your site has significant performance issues."

  /** The overall rating: at least 90, 75, 50, or below; a boundary value
      belongs to the higher bucket. */
  function PerformanceRating(score: real): string {
    if score >= 90.0 then Excellent
    else if score >= 75.0 then Good
    else if score >= 50.0 then Fair
    else Poor
  }

  lemma PerformanceRatingBuckets(score: real)
    ensures PerformanceRating(score) == Excellent <==> score >= 90.0
    ensures PerformanceRating(score) == Good <==> 75.0 <= score < 90.0
    ensures PerformanceRating(score) == Fair <==> 50.0 <= score < 75.0
    ensures PerformanceRating(score) == Poor <==> score < 50.0
  {
  }

  /** Good below `good`, needs improvement below `poor`, else poor. */
  function MetricRating(x: real, good: real, poor: real): string
    requires good < poor
  {
    if x < good then "good" else if x < poor then "needs improvement" else "poor"
  }

  lemma MetricRatingBuckets(x: real, good: real, poor: real)
    requires good < poor
    ensures MetricRating(x, good, poor) == "good" <==> x < good
    ensures MetricRating(x, good, poor) == "needs improvement" <==> good <= x < poor
    ensures MetricRating(x, good, poor) == "poor" <==> x >= poor
  {
  }

  function FcpPart(fcp: real): string {
    "FCP: " + Text.Fixed0(fcp) + "ms (" + MetricRating(fcp, 1800.0, 3000.0) + ")"
  }

  function LcpPart(lcp: real): string {
    "LCP: " + Text.Fixed0(lcp) + "ms (" + MetricRating(lcp, 2500.0, 4000.0) + ")"
  }

  function AveragesOf(site: Option<SiteMetrics>): Averages {
    if site.Some? then site.value.averages else Averages(None, None, None)
  }

  const Unavailable: string := "Metrics unavailable"

  /** The key-metrics text: the FCP part when the average FCP is nonzero, then
      the LCP part when the average LCP is nonzero, joined by ", ", or
      "Metrics unavailable" when neither appears. */
  function KeyMetricParts(site: Option<SiteMetrics>): seq<string> {
    var a := AveragesOf(site);
    var fcp, lcp := a.avgFcp.GetOr(0.0), a.avgLcp.GetOr(0.0);
    (if fcp != 0.0 then [FcpPart(fcp)] else []) + (if lcp != 0.0 then [LcpPart(lcp)] else [])
  }

  function SummarizeKeyMetrics(site: Option<SiteMetrics>): string {
    var parts := KeyMetricParts(site);
    if parts == [] then Unavailable else Text.Join(parts, ", ")
  }

  lemma KeyMetricsShape(site: Option<SiteMetrics>)
    ensures var r := SummarizeKeyMetrics(site);
      var fcp, lcp := AveragesOf(site).avgFcp.GetOr(0.0), AveragesOf(site).avgLcp.GetOr(0.0);
      (r == Unavailable <==> fcp == 0.0 && lcp == 0.0) &&
      (fcp != 0.0 ==> FcpPart(fcp) <= r) &&
      (fcp != 0.0 && lcp != 0.0 ==> r == FcpPart(fcp) + ", " + LcpPart(lcp)) &&
      (fcp == 0.0 && lcp != 0.0 ==> r == LcpPart(lcp))
  {
    var parts := KeyMetricParts(site);
    if parts != [] {
      var r := Text.Join(parts, ", ");
      assert |parts| == 2 ==> Text.Join(parts[1..], ", ") == parts[1];
      assert r[0] == 'F' || r[0] == 'L';
    }
  }

  /** `"Ranked {rank} out of {total_sites} sites"`, with `N/A` and 1 when
      there are no comparisons. */
  function Ranking(comparisons: Option<Comparisons>): string {
    match comparisons
    case None => "Ranked N/A out of 1 sites"
    case Some(c) => "Ranked " + Text.IntToString(c.rank) + " out of " + Text.IntToString(c.totalSites) + " sites"
  }

  /** The ranking line names the main site's rank, one more than the number
      of competitors scoring at least as high, out of all sites; without
      competitors it reads N/A out of 1. */
  lemma RankingText(mainPerf: real, cs: seq<Competitor>)
    ensures Ranking(ComparisonsSpec(mainPerf, cs)) ==
            if cs == [] then "Ranked N/A out of 1 sites"
            else "Ranked " + Text.IntToString(1 + CountAtLeast(mainPerf, cs)) + " out of " +
                 Text.IntToString(|cs| + 1) + " sites"
  {
    RankCountsTies(mainPerf, cs);
  }

  function GenerateSummary(mainSite: Option<SiteMetrics>, comparisons: Option<Comparisons>): Summary {
    Summary(PerformanceRating(PerformanceOf(mainSite)), Ranking(comparisons), SummarizeKeyMetrics(mainSite))
  }

  lemma FixedThousands()
    ensures Text.Fixed0(2000.0) == "2000" && Text.Fixed0(3000.0) == "3000"
  {
    assert Text.RoundHalfEven(2000.0) == 2000;
    assert Text.RoundHalfEven(3000.0) == 3000;
    assert Text.NatToString(2) == "2" && Text.NatToString(3) == "3";
    assert Text.NatToString(20) == "20" && Text.NatToString(30) == "30";
    assert Text.NatToString(200) == "200" && Text.NatToString(300) == "300";
    assert Text.NatToString(2000) == "2000" && Text.NatToString(3000) == "3000";
  }

  /** A main site averaging FCP 2000 ms and LCP 3000 ms is described as
      needing improvement on both. */
  lemma KeyMetricsExample(lh: Option<LighthouseBlock>, wpt: Option<WebPageTestBlock>, gtm: Option<GtmetrixBlock>)
    ensures SummarizeKeyMetrics(Some(SiteMetrics(lh, wpt, gtm, Averages(Some(2000.0), Some(3000.0), None)))) ==
            ("FCP: " + "2000" + "ms (" + "needs improvement" + ")") + ", " +
            ("LCP: " + "3000" + "ms (" + "needs improvement" + ")")
  {
    FixedThousands();
    assert MetricRating(2000.0, 1800.0, 3000.0) == "needs improvement";
    assert MetricRating(3000.0, 2500.0, 4000.0) == "needs improvement";
    var site := Some(SiteMetrics(lh, wpt, gtm, Averages(Some(2000.0), Some(3000.0), None)));
    assert AveragesOf(site).avgFcp.GetOr(0.0) == 2000.0;
    assert AveragesOf(site).avgLcp.GetOr(0.0) == 3000.0;
    KeyMetricsShape(site);
    assert SummarizeKeyMetrics(site) == FcpPart(2000.0) + ", " + LcpPart(3000.0);
    assert FcpPart(2000.0) == "FCP: " + "2000" + "ms (" + "needs improvement" + ")";
    assert LcpPart(3000.0) == "LCP: " + "3000" + "ms (" + "needs improvement" + ")";
  }

  /** A competitor with exactly the main site's score is listed as beating it
      and pushes the main site to rank 2 of 2. */
  lemma TieCountsAgainstMain(mainSite: Option<SiteMetrics>, c: Competitor)
    requires CompetitorScore(c) == PerformanceOf(mainSite)
    ensures ComparisonsSpec(PerformanceOf(mainSite), [c]) ==
            Some(Comparisons(2, 2, [], [ComparisonEntry(c.url, CompetitorScore(c), 0.0)]))
  {
    var p := PerformanceOf(mainSite);
    assert [c][..0] == [];
    assert BetterThan(p, [c]) == BetterThan(p, []) + [];
    assert WorseThan(p, [c]) == WorseThan(p, []) + [ComparisonEntry(c.url, CompetitorScore(c), 0.0)];
    assert WorseThan(p, [c]) == [ComparisonEntry(c.url, CompetitorScore(c), 0.0)];
    assert BetterThan(p, [c]) == [];
    assert ComparisonsSpec(p, [c]) == Some(Comparisons(1 + 1, 1 + 1, [], [ComparisonEntry(c.url, CompetitorScore(c), 0.0)]));
  }

  // ---------------------------------------------------------------------------
  // `aggregate_metrics`
  // ---------------------------------------------------------------------------

  /** The site record for one competitor URL, joined by URL across tools. */
  function CompetitorSite(url: string, lighthouse: seq<ToolRecord>, webpagetest: seq<ToolRecord>,
                          gtmetrix: seq<ToolRecord>): Competitor {
    Competitor(url, AggregateSingleSite(FirstWithUrl(lighthouse, url), FirstWithUrl(webpagetest, url),
                                        FirstWithUrl(gtmetrix, url)))
  }

  function MainSite(lighthouse: seq<ToolRecord>, webpagetest: seq<ToolRecord>, gtmetrix: seq<ToolRecord>): Option<SiteMetrics> {
    if FirstMain(lighthouse).Some? then
      Some(AggregateSingleSite(FirstMain(lighthouse), FirstMain(webpagetest), FirstMain(gtmetrix)))
    else None
  }

  /** One competitor record per URL, in order. */
  function Competitors(urls: seq<string>, lighthouse: seq<ToolRecord>, webpagetest: seq<ToolRecord>,
                       gtmetrix: seq<ToolRecord>): seq<Competitor>
    decreases |urls|
  {
    if urls == [] then []
    else Competitors(urls[..|urls| - 1], lighthouse, webpagetest, gtmetrix) +
         [CompetitorSite(urls[|urls| - 1], lighthouse, webpagetest, gtmetrix)]
  }

  /** One competitor per URL, in order, each tagged with its URL. */
  lemma {:induction false} CompetitorsTagged(urls: seq<string>, lighthouse: seq<ToolRecord>,
                                             webpagetest: seq<ToolRecord>, gtmetrix: seq<ToolRecord>)
    ensures |Competitors(urls, lighthouse, webpagetest, gtmetrix)| == |urls|
    ensures forall i :: 0 <= i < |urls| ==> Competitors(urls, lighthouse, webpagetest, gtmetrix)[i].url == urls[i]
    decreases |urls|
  {
    if urls != [] {
      CompetitorsTagged(urls[..|urls| - 1], lighthouse, webpagetest, gtmetrix);
    }
  }

  function Aggregate(lighthouse: seq<ToolRecord>, webpagetest: seq<ToolRecord>, gtmetrix: seq<ToolRecord>): Aggregated {
    var mainSite := MainSite(lighthouse, webpagetest, gtmetrix);
    var competitors := Competitors(CompetitorUrls(lighthouse), lighthouse, webpagetest, gtmetrix);
    var comparisons := ComparisonsSpec(PerformanceOf(mainSite), competitors);
    Aggregated(mainSite, competitors, comparisons, GenerateSummary(mainSite, comparisons))
  }

  /** The competitor loop of `aggregate_metrics`: one site record per URL,
      appended in order. */
  method CollectCompetitors(urls: seq<string>, lighthouse: seq<ToolRecord>, webpagetest: seq<ToolRecord>,
                            gtmetrix: seq<ToolRecord>) returns (competitors: seq<Competitor>)
    ensures competitors == Competitors(urls, lighthouse, webpagetest, gtmetrix)
  {
    competitors := [];
    for i := 0 to |urls|
      invariant competitors == Competitors(urls[..i], lighthouse, webpagetest, gtmetrix)
    {
      assert urls[..i + 1][..i] == urls[..i];
      competitors := competitors + [CompetitorSite(urls[i], lighthouse, webpagetest, gtmetrix)];
    }
    assert urls[..|urls|] == urls;
  }

  /** `aggregate_metrics`. */
  method AggregateMetrics(lighthouse: seq<ToolRecord>, webpagetest: seq<ToolRecord>, gtmetrix: seq<ToolRecord>)
    returns (r: Aggregated)
    ensures r == Aggregate(lighthouse, webpagetest, gtmetrix)
  {
    var mainSite: Option<SiteMetrics> := None;
    var mainLighthouse := FirstMain(lighthouse);
    if mainLighthouse.Some? {
      mainSite := Some(AggregateSingleSite(mainLighthouse, FirstMain(webpagetest), FirstMain(gtmetrix)));
    }
    var competitors := CollectCompetitors(CompetitorUrls(lighthouse), lighthouse, webpagetest, gtmetrix);
    var comparisons := GenerateComparisons(mainSite, competitors);
    r := Aggregated(mainSite, competitors, comparisons, GenerateSummary(mainSite, comparisons));
  }

  /** The main site exists exactly when a Lighthouse record is flagged main;
      there is one competitor per other Lighthouse record, in order, each
      tagged with that record's URL; comparisons exist exactly when there are
      competitors. */
  lemma AggregatePartition(lighthouse: seq<ToolRecord>, webpagetest: seq<ToolRecord>, gtmetrix: seq<ToolRecord>)
    ensures var a := Aggregate(lighthouse, webpagetest, gtmetrix);
      (a.mainSite.Some? <==> exists i :: 0 <= i < |lighthouse| && lighthouse[i].isMain) &&
      |a.competitors| + MainCount(lighthouse) == |lighthouse| &&
      |a.competitors| == |CompetitorUrls(lighthouse)| &&
      (forall i :: 0 <= i < |a.competitors| ==> a.competitors[i].url == CompetitorUrls(lighthouse)[i]) &&
      (a.comparisons.Some? <==> a.competitors != [])
  {
    var a := Aggregate(lighthouse, webpagetest, gtmetrix);
    FirstMainSpec(lighthouse);
    CompetitorUrlsCount(lighthouse);
    assert a.mainSite.Some? <==> FirstMain(lighthouse).Some?;
    assert a.competitors == Competitors(CompetitorUrls(lighthouse), lighthouse, webpagetest, gtmetrix);
    CompetitorsTagged(CompetitorUrls(lighthouse), lighthouse, webpagetest, gtmetrix);
  }

  // ---------------------------------------------------------------------------
  // Recommendations
  // ---------------------------------------------------------------------------

  const FcpRecommendation: Recommendation := Recommendation(
    Some("high"), Some("Performance"), Some("Improve First Contentful Paint"),
    Some("Reduce server response time, eliminate render-blocking resources, and optimize critical rendering path."),
    Some("Users will see content faster, improving perceived performance"))

  const LcpRecommendation: Recommendation := Recommendation(
    Some("high"), Some("Performance"), Some("Optimize Largest Contentful Paint"),
    Some("Optimize images, use CDN, implement lazy loading, and prioritize above-the-fold content."),
    Some("Faster visual completion and better user experience"))

  const CachingRecommendation: Recommendation := Recommendation(
    Some("medium"), Some("Optimization"), Some("Implement Caching Strategy"),
    Some("Use browser caching, CDN caching, and server-side caching to reduce load times."),
    Some("Faster repeat visits and reduced server load"))

  /** The main site's Lighthouse block, if the main site has one. */
  function MainLighthouse(a: Aggregated): Option<LighthouseBlock> {
    if a.mainSite.Some? then a.mainSite.value.lighthouse else None
  }

  /** `_generate_rule_based_recommendations`: an FCP entry when the main
      site's Lighthouse FCP exceeds 3000, an LCP entry when its LCP exceeds
      4000 (both high priority), and always the caching entry last. */
  function RuleBasedRecommendations(a: Aggregated): seq<Recommendation> {
    var lh := MainLighthouse(a);
    var fcp := if lh.Some? then lh.value.fcp else 0.0;
    var lcp := if lh.Some? then lh.value.lcp else 0.0;
    (if fcp > 3000.0 then [FcpRecommendation] else []) +
    (if lcp > 4000.0 then [LcpRecommendation] else []) +
    [CachingRecommendation]
  }

  /** The rule-based list: an FCP entry exactly when the main Lighthouse FCP
      is over 3000 ms, it first; an LCP entry exactly when its LCP is over
      4000 ms; the caching entry always, last; every other entry high. */
  lemma RuleBasedShape(a: Aggregated)
    ensures var r := RuleBasedRecommendations(a);
      1 <= |r| <= 3 && r[|r| - 1] == CachingRecommendation
    ensures var r := RuleBasedRecommendations(a);
      var lh := MainLighthouse(a);
      var fcp := if lh.Some? then lh.value.fcp else 0.0;
      var lcp := if lh.Some? then lh.value.lcp else 0.0;
      (FcpRecommendation in r <==> fcp > 3000.0) && (LcpRecommendation in r <==> lcp > 4000.0) &&
      (fcp > 3000.0 ==> r[0] == FcpRecommendation)
    ensures var r := RuleBasedRecommendations(a);
      forall i :: 0 <= i < |r| - 1 ==> r[i].priority == Some("high")
  {
  }

  /** Which model the agent uses: OpenAI when its key is set, else Anthropic
      when its key is set, else none. */
  datatype Provider = OpenAI | Anthropic | NoModel

  function ChooseProvider(openaiKey: string, anthropicKey: string): (r: Provider)
    ensures r == OpenAI <==> openaiKey != ""
    ensures r == Anthropic <==> openaiKey == "" && anthropicKey != ""
    ensures r == NoModel <==> openaiKey == "" && anthropicKey == ""
  {
    if openaiKey != "" then OpenAI else if anthropicKey != "" then Anthropic else NoModel
  }

  /** What the model call produced: a JSON array found in the reply, a reply
      without one, or an exception (including malformed JSON). */
  datatype ModelReply = JsonArray(recommendations: seq<Recommendation>) | NoJsonArray | ModelFailed(message: string)

  /** `generate_recommendations`: the model's list when one is configured and
      replied with a JSON array, otherwise the rule-based list. */
  function GenerateRecommendations(provider: Provider, reply: ModelReply, a: Aggregated): seq<Recommendation> {
    if provider == NoModel then RuleBasedRecommendations(a)
    else match reply
      case JsonArray(recs) => recs
      case _ => RuleBasedRecommendations(a)
  }

  /** The model's list exactly when a model is configured and its reply held
      a JSON array; the rule-based list in every other case, including a
      failed call. */
  lemma RecommendationsSource(provider: Provider, reply: ModelReply, a: Aggregated)
    ensures provider != NoModel && reply.JsonArray? ==>
            GenerateRecommendations(provider, reply, a) == reply.recommendations
    ensures provider == NoModel || !reply.JsonArray? ==>
            GenerateRecommendations(provider, reply, a) == RuleBasedRecommendations(a)
  {
  }
}
