/** The dictionaries the tool agents hand to each other, as datatypes:
    a metrics or scores dictionary, a suggestion, the result of a tool's
    `analyze`, and the per-URL record the workflow wraps around it. */
module Measurements {
  import opened Wrappers

  /** A dictionary from metric (or score) name to its numeric value. */
  type Metrics = map<string, real>

  /** `d.get(k, 0)`. */
  function Get(m: Metrics, k: string): real {
    if k in m then m[k] else 0.0
  }

  datatype Severity = High | Medium | Low | Info

  /** One improvement suggestion; the advice sentence is not modelled. */
  datatype Suggestion = Suggestion(metric: string, severity: Severity)

  /** The dictionary a tool agent's `analyze` returns. Keys a given tool does
      not produce are `None` (or false, for the two flags). */
  datatype ToolData = ToolData(
    success: bool,
    fallback: bool,
    url: string,
    metrics: Metrics,
    scores: Metrics,
    suggestions: seq<Suggestion>,
    testId: Option<string>,
    waterfall: Option<string>,
    error: Option<string>,
    message: Option<string>)

  /** The failure dictionary all three tool agents return from their
      exception handler. */
  function FailedAnalysis(url: string, error: string): ToolData {
    ToolData(false, false, url, map[], map[], [], None, None, Some(error), None)
  }

  /** The record the workflow appends for one URL: `url`, `is_main` and the
      agent's result as `data` (the timestamp is not modelled). */
  datatype UrlRecord<T> = UrlRecord(url: string, isMain: bool, data: T)

  type ToolRecord = UrlRecord<ToolData>

  // ---------------------------------------------------------------------------
  // Suggestion lists built by conditional appends, one part per metric
  // ---------------------------------------------------------------------------

  /** At most one suggestion for a metric that is bad when large: high
      strictly above `hi`, medium strictly above `lo`, none otherwise. */
  function AboveThreshold(metric: string, x: real, lo: real, hi: real): (r: seq<Suggestion>)
    requires lo < hi
    ensures |r| <= 1 && forall i :: 0 <= i < |r| ==> r[i].metric == metric
    ensures Suggestion(metric, High) in r <==> x > hi
    ensures Suggestion(metric, Medium) in r <==> lo < x <= hi
    ensures forall i :: 0 <= i < |r| ==> r[i].severity in {High, Medium}
  {
    if x > hi then [Suggestion(metric, High)]
    else if x > lo then [Suggestion(metric, Medium)]
    else []
  }

  /** At most one suggestion for a metric that is bad when small: high strictly
      below `lo`, medium strictly below `hi`, none otherwise. */
  function BelowThreshold(metric: string, x: real, lo: real, hi: real): (r: seq<Suggestion>)
    requires lo < hi
    ensures |r| <= 1 && forall i :: 0 <= i < |r| ==> r[i].metric == metric
    ensures Suggestion(metric, High) in r <==> x < lo
    ensures Suggestion(metric, Medium) in r <==> lo <= x < hi
    ensures forall i :: 0 <= i < |r| ==> r[i].severity in {High, Medium}
  {
    if x < lo then [Suggestion(metric, High)]
    else if x < hi then [Suggestion(metric, Medium)]
    else []
  }

  /** A single suggestion of severity `sev` exactly when `x > limit`. */
  function Exceeds(metric: string, x: real, limit: real, sev: Severity): (r: seq<Suggestion>)
    ensures |r| <= 1 && forall i :: 0 <= i < |r| ==> r[i] == Suggestion(metric, sev)
    ensures Suggestion(metric, sev) in r <==> x > limit
  {
    if x > limit then [Suggestion(metric, sev)] else []
  }

  /** The parts appended one after another. */
  function Flatten(parts: seq<seq<Suggestion>>): seq<Suggestion>
    decreases |parts|
  {
    if parts == [] then [] else parts[0] + Flatten(parts[1..])
  }

  /** The position of `metric` in `names` (|names| when absent). */
  function IndexOf(names: seq<string>, metric: string): (k: nat)
    ensures k <= |names|
    ensures k < |names| <==> metric in names
    ensures k < |names| ==> names[k] == metric
    decreases |names|
  {
    if names == [] then 0 else if names[0] == metric then 0 else 1 + IndexOf(names[1..], metric)
  }

  predicate Distinct(names: seq<string>) {
    forall i, j :: 0 <= i < j < |names| ==> names[i] != names[j]
  }

  /** Part `k` holds at most one suggestion, and only for metric `names[k]`. */
  predicate PartsFor(parts: seq<seq<Suggestion>>, names: seq<string>) {
    |parts| == |names| &&
    forall k :: 0 <= k < |parts| ==>
      |parts[k]| <= 1 && forall i :: 0 <= i < |parts[k]| ==> parts[k][i].metric == names[k]
  }

  /** Every suggestion names a metric of `names`, and they follow its order. */
  predicate InOrder(r: seq<Suggestion>, names: seq<string>) {
    (forall i :: 0 <= i < |r| ==> r[i].metric in names) &&
    forall i, j :: 0 <= i < j < |r| ==> IndexOf(names, r[i].metric) < IndexOf(names, r[j].metric)
  }

  /** One suggestion per part at most, in the order of the parts. */
  lemma {:induction false} FlattenInOrder(parts: seq<seq<Suggestion>>, names: seq<string>)
    requires PartsFor(parts, names) && Distinct(names)
    ensures |Flatten(parts)| <= |parts|
    ensures InOrder(Flatten(parts), names)
    decreases |parts|
  {
    if parts != [] {
      var tail := Flatten(parts[1..]);
      assert PartsFor(parts[1..], names[1..]);
      FlattenInOrder(parts[1..], names[1..]);
      var r := Flatten(parts);
      assert r == parts[0] + tail;
      forall i | 0 <= i < |tail|
        ensures tail[i].metric in names && IndexOf(names, tail[i].metric) == 1 + IndexOf(names[1..], tail[i].metric)
      {
        var k := IndexOf(names[1..], tail[i].metric);
        assert names[1..][k] == names[k + 1];
      }
      forall i | 0 <= i < |parts[0]| ensures IndexOf(names, parts[0][i].metric) == 0 {
      }
    }
  }

  /** A suggestion for the metric of part `k` is in the list exactly when it is
      in part `k`. */
  lemma {:induction false} FlattenIn(parts: seq<seq<Suggestion>>, names: seq<string>, k: nat, x: Suggestion)
    requires PartsFor(parts, names) && Distinct(names)
    requires k < |parts| && x.metric == names[k]
    ensures x in Flatten(parts) <==> x in parts[k]
    decreases |parts|
  {
    var tail := Flatten(parts[1..]);
    assert Flatten(parts) == parts[0] + tail;
    assert PartsFor(parts[1..], names[1..]);
    if k == 0 {
      FlattenInOrder(parts[1..], names[1..]);
      assert forall i :: 0 <= i < |tail| ==> tail[i].metric in names[1..];
      assert names[0] !in names[1..];
    } else {
      FlattenIn(parts[1..], names[1..], k - 1, x);
      assert names[0] != names[k];
    }
  }

  /** The severities of the list are those of its parts. */
  lemma {:induction false} FlattenSeverities(parts: seq<seq<Suggestion>>, sevs: set<Severity>)
    requires forall k, i :: 0 <= k < |parts| && 0 <= i < |parts[k]| ==> parts[k][i].severity in sevs
    ensures forall i :: 0 <= i < |Flatten(parts)| ==> Flatten(parts)[i].severity in sevs
    decreases |parts|
  {
    if parts != [] {
      FlattenSeverities(parts[1..], sevs);
    }
  }

  lemma {:induction false} IndexOfDistinct(names: seq<string>, k: nat)
    requires Distinct(names) && k < |names|
    ensures IndexOf(names, names[k]) == k
    decreases |names|
  {
    if k > 0 {
      assert names[1..][k - 1] == names[k];
      IndexOfDistinct(names[1..], k - 1);
    }
  }

  /** A suggestion for the last metric of the order is present exactly when it
      is the final entry. */
  lemma InOrderLast(r: seq<Suggestion>, names: seq<string>, x: Suggestion)
    requires InOrder(r, names) && Distinct(names) && |names| > 0 && x.metric == names[|names| - 1]
    ensures x in r <==> (|r| > 0 && r[|r| - 1] == x)
  {
    if x in r {
      var i :| 0 <= i < |r| && r[i] == x;
      IndexOfDistinct(names, |names| - 1);
      assert IndexOf(names, r[i].metric) == |names| - 1;
      assert IndexOf(names, r[|r| - 1].metric) < |names|;
    }
  }

  // ---------------------------------------------------------------------------
  // Polling a remote test
  // ---------------------------------------------------------------------------

  /** The seconds between two polls of a remote test. */
  const PollInterval: int := 5

  /** `len(range(max_wait // 5))`: the number of polls within `maxWait`
      seconds, none for a negative wait. */
  function PollBudget(maxWait: int): (n: nat)
    ensures maxWait >= 0 ==> n * PollInterval <= maxWait < (n + 1) * PollInterval
    ensures maxWait < 0 ==> n == 0
  {
    if maxWait < 0 then 0 else maxWait / PollInterval
  }

  // ---------------------------------------------------------------------------
  // Reading result fields
  // ---------------------------------------------------------------------------

  /** A dictionary literal `{name: source.get(attribute, 0), ...}` written as a
      table of (name, attribute) pairs; as in a literal, a later duplicate name
      wins. */
  function Project(fields: seq<(string, string)>, source: Metrics): (r: Metrics)
    ensures r.Keys == set i | 0 <= i < |fields| :: fields[i].0
    decreases |fields|
  {
    if fields == [] then map[]
    else
      var last := fields[|fields| - 1];
      var r := Project(fields[..|fields| - 1], source)[last.0 := Get(source, last.1)];
      assert r.Keys == set i | 0 <= i < |fields| :: fields[i].0 by {
        forall k | k in r.Keys ensures exists i :: 0 <= i < |fields| && fields[i].0 == k {
          if k != last.0 {
            var i :| 0 <= i < |fields| - 1 && fields[..|fields| - 1][i].0 == k;
            assert fields[i].0 == k;
          }
        }
        forall i | 0 <= i < |fields| ensures fields[i].0 in r.Keys {
          if i < |fields| - 1 {
            assert fields[..|fields| - 1][i] == fields[i];
          }
        }
      }
      r
  }

  predicate DistinctNames(fields: seq<(string, string)>) {
    forall i, j :: 0 <= i < j < |fields| ==> fields[i].0 != fields[j].0
  }

  /** With distinct names, each name holds its attribute's value, 0 when absent. */
  lemma {:induction false} ProjectValues(fields: seq<(string, string)>, source: Metrics)
    requires DistinctNames(fields)
    ensures forall i :: 0 <= i < |fields| ==> Project(fields, source)[fields[i].0] == Get(source, fields[i].1)
    decreases |fields|
  {
    if fields != [] {
      var init := fields[..|fields| - 1];
      ProjectValues(init, source);
      forall i | 0 <= i < |fields| - 1
        ensures Project(fields, source)[fields[i].0] == Get(source, fields[i].1)
      {
        assert init[i] == fields[i];
      }
    }
  }
}
