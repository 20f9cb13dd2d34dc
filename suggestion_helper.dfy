// generateSuggestions: one fixed piece of advice per metric graded badly,
// in the order of the metrics, or a single all-clear line.

module SuggestionHelper {
  import opened Wrappers
  import opened MetricsHelper

  const LongFunction: string := "Function is too long. Split into smaller helper methods."
  const DeepNesting: string := "Deeply nested logic. Consider flattening with early returns or switch cases."
  const HighComplexity: string := " High logical complexity. Try breaking down conditions or loops."
  const ManyParameters: string := " Too many parameters. Consider grouping into an object or class."
  const FewComments: string := " Low comment coverage. Add documentation or inline comments."
  const UnclearNames: string := " Some variable names are unclear. Use more descriptive names."
  const NoIssues: string := " No major maintainability issues detected."

  /** The metrics whose advice is drawn by the grade High. */
  predicate AdvisedOnHigh(metric: string)
  {
    metric == FunctionLength || metric == NestingDepth || metric == CyclomaticComplexity
    || metric == ParameterCount || metric == CommentRatio
  }

  /** The advice one metric result calls for: High on any of the first
      five metrics, Medium (not High) on Naming Clarity. */
  function SuggestionFor(m: MetricResult): (r: Option<string>)
    ensures r.Some? <==> (AdvisedOnHigh(m.metric) && m.status == High)
                         || (m.metric == NamingClarity && m.status == Medium)
    ensures r.Some? ==> r.value != NoIssues
  {
    if m.metric == FunctionLength && m.status == High then Some(LongFunction)
    else if m.metric == NestingDepth && m.status == High then Some(DeepNesting)
    else if m.metric == CyclomaticComplexity && m.status == High then Some(HighComplexity)
    else if m.metric == ParameterCount && m.status == High then Some(ManyParameters)
    else if m.metric == CommentRatio && m.status == High then Some(FewComments)
    else if m.metric == NamingClarity && m.status == Medium then Some(UnclearNames)
    else None
  }

  /** The advice the loop collects, in the order of the metrics. */
  function Collected(metrics: seq<MetricResult>): (r: seq<string>)
    ensures |r| <= |metrics|
    ensures NoIssues !in r
  {
    if metrics == [] then []
    else
      var last := metrics[|metrics| - 1];
      Collected(metrics[..|metrics| - 1]) + (match SuggestionFor(last) case Some(s) => [s] case None => [])
  }

  /** What `generateSuggestions(metrics)` returns. */
  function SuggestionsOf(metrics: seq<MetricResult>): (r: seq<string>)
    ensures |r| >= 1
  {
    var c := Collected(metrics);
    if c == [] then [NoIssues] else c
  }

  /** `generateSuggestions(metrics)`. */
  method GenerateSuggestions(metrics: seq<MetricResult>) returns (suggestions: seq<string>)
    ensures suggestions == SuggestionsOf(metrics)
  {
    suggestions := [];
    for i := 0 to |metrics|
      invariant suggestions == Collected(metrics[..i])
    {
      var m := metrics[i];
      assert metrics[..i + 1][..i] == metrics[..i];
      ghost var before := suggestions;
      if m.metric == FunctionLength && m.status == High {
        suggestions := suggestions + [LongFunction];
      }
      if m.metric == NestingDepth && m.status == High {
        suggestions := suggestions + [DeepNesting];
      }
      if m.metric == CyclomaticComplexity && m.status == High {
        suggestions := suggestions + [HighComplexity];
      }
      if m.metric == ParameterCount && m.status == High {
        suggestions := suggestions + [ManyParameters];
      }
      if m.metric == CommentRatio && m.status == High {
        suggestions := suggestions + [FewComments];
      }
      if m.metric == NamingClarity && m.status == Medium {
        suggestions := suggestions + [UnclearNames];
      }
      assert suggestions == before + (match SuggestionFor(m) case Some(s) => [s] case None => []);
    }
    assert metrics[..|metrics|] == metrics;
    if |suggestions| == 0 {
      suggestions := suggestions + [NoIssues];
    }
  }

  /** The advice follows the order of the metrics: collecting over two runs
      of metrics is collecting over each in turn. */
  lemma {:induction false} CollectedAppend(a: seq<MetricResult>, b: seq<MetricResult>)
    ensures Collected(a + b) == Collected(a) + Collected(b)
    decreases |b|
  {
    if b == [] {
      assert a + b == a;
    } else {
      var b0 := b[..|b| - 1];
      assert (a + b)[..|a + b| - 1] == a + b0;
      assert (a + b)[|a + b| - 1] == b[|b| - 1];
      CollectedAppend(a, b0);
    }
  }

  /** The all-clear line comes exactly when no metric calls for advice,
      and then alone. */
  lemma {:induction false} AllClear(metrics: seq<MetricResult>)
    ensures (forall i :: 0 <= i < |metrics| ==> SuggestionFor(metrics[i]).None?)
            <==> SuggestionsOf(metrics) == [NoIssues]
    decreases |metrics|
  {
    if metrics != [] {
      var init := metrics[..|metrics| - 1];
      AllClear(init);
      assert forall i :: 0 <= i < |init| ==> init[i] == metrics[i];
      if SuggestionsOf(metrics) == [NoIssues] {
        assert Collected(metrics) == [];
      }
    }
  }

  /** Naming Clarity draws advice when graded Medium, and not when graded
      High. */
  lemma NamingClarityOnMedium(r: MetricResult)
    requires r.metric == NamingClarity
    ensures SuggestionFor(r).Some? <==> r.status == Medium
  {
  }

  /** A method whose six metrics are all Low draws only the all-clear line. */
  lemma AllLowAllClear(m: MethodRecord, loc: nat, comments: nat)
    requires EvaluateAllMetrics(m, loc, comments).Ok?
    requires forall i :: 0 <= i < 6 ==> EvaluateAllMetrics(m, loc, comments).value[i].status == Low
    ensures SuggestionsOf(EvaluateAllMetrics(m, loc, comments).value) == [NoIssues]
  {
    var r := EvaluateAllMetrics(m, loc, comments).value;
    AllClear(r);
  }
}
