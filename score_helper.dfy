// The maintainability score of a method (100 minus its penalties) and of a
// file (the mean of its methods' scores), each with a level.

module ScoreHelper {
  import opened MetricsHelper

  /** A method's score and level. */
  datatype MethodScore = MethodScore(score: nat, level: Status)

  /** A file's mean score, kept exact as `total / count`, and its level. */
  datatype AverageScore = AverageScore(total: nat, count: nat, level: Status)

  /** The level of the score `num / den`: below 60 Low, below 85 Medium,
      High otherwise. */
  function LevelOf(num: nat, den: nat): (r: Status)
    requires den > 0
    ensures r == Low <==> num < 60 * den
    ensures r == Medium <==> 60 * den <= num < 85 * den
    ensures r == High <==> num >= 85 * den
  {
    if num < 60 * den then Low
    else if num < 85 * den then Medium
    else High
  }

  /** The sum of the penalties, in hundredths: `reduce((sum, m) => sum + (m.penalty || 0), 0)`. */
  function TotalPenalty(metrics: seq<MetricResult>): nat
  {
    if metrics == [] then 0 else TotalPenalty(metrics[..|metrics| - 1]) + metrics[|metrics| - 1].penalty
  }

  /** `computeMethodScore(metrics)`: `max(0, 100 - totalPenalty * 100)`;
      with penalties in hundredths the score is a whole number. */
  function ComputeMethodScore(metrics: seq<MetricResult>): (r: MethodScore)
    ensures 0 <= r.score <= 100
    ensures r.score == if TotalPenalty(metrics) >= 100 then 0 else 100 - TotalPenalty(metrics)
    ensures r.level == LevelOf(r.score, 1)
  {
    var total := TotalPenalty(metrics);
    var score := if 100 - total < 0 then 0 else 100 - total;
    MethodScore(score, LevelOf(score, 1))
  }

  /** Without any penalty a method scores 100, level High. */
  lemma NoPenaltyFullScore(metrics: seq<MetricResult>)
    requires forall i :: 0 <= i < |metrics| ==> metrics[i].penalty == 0
    ensures ComputeMethodScore(metrics) == MethodScore(100, High)
  {
    NoPenaltyTotal(metrics);
  }

  lemma {:induction false} NoPenaltyTotal(metrics: seq<MetricResult>)
    requires forall i :: 0 <= i < |metrics| ==> metrics[i].penalty == 0
    ensures TotalPenalty(metrics) == 0
    decreases |metrics|
  {
    if metrics != [] {
      NoPenaltyTotal(metrics[..|metrics| - 1]);
    }
  }

  /** Another penalty never raises the score. */
  lemma {:induction false} MorePenaltyLowerScore(metrics: seq<MetricResult>, extra: MetricResult)
    ensures ComputeMethodScore(metrics + [extra]).score <= ComputeMethodScore(metrics).score
    ensures Rank(ComputeMethodScore(metrics + [extra]).level) <= Rank(ComputeMethodScore(metrics).level)
  {
    assert (metrics + [extra])[..|metrics|] == metrics;
    assert TotalPenalty(metrics + [extra]) == TotalPenalty(metrics) + extra.penalty;
  }

  /** The six metrics of `evaluateAllMetrics` take at most 75 points
      (15 + 15 + 15 + 10 + 10 + 10), so a method's score is at least 25. */
  lemma SixMetricsBound(m: MethodRecord, loc: nat, comments: nat)
    requires EvaluateAllMetrics(m, loc, comments).Ok?
    ensures ComputeMethodScore(EvaluateAllMetrics(m, loc, comments).value).score >= 25
  {
    var a, b, c := CheckFunctionLength(m, loc), CheckNestingDepth(m).value, CheckComplexity(m);
    var d, e, f := CheckParameters(m), CheckCommentRatio(m, loc, comments), CheckNamingClarity(m);
    var r := [a, b, c, d, e, f];
    assert r == EvaluateAllMetrics(m, loc, comments).value;
    assert TotalPenalty(r) == TotalPenalty([a, b, c, d, e]) + f.penalty by { assert r[..5] == [a, b, c, d, e]; }
    assert TotalPenalty([a, b, c, d, e]) == TotalPenalty([a, b, c, d]) + e.penalty by { assert [a, b, c, d, e][..4] == [a, b, c, d]; }
    assert TotalPenalty([a, b, c, d]) == TotalPenalty([a, b, c]) + d.penalty by { assert [a, b, c, d][..3] == [a, b, c]; }
    assert TotalPenalty([a, b, c]) == TotalPenalty([a, b]) + c.penalty by { assert [a, b, c][..2] == [a, b]; }
    assert TotalPenalty([a, b]) == TotalPenalty([a]) + b.penalty by { assert [a, b][..1] == [a]; }
    assert TotalPenalty([a]) == a.penalty by { assert [a][..0] == []; }
    assert TotalPenalty(r) <= 75;
  }

  // ---------------------------------------------------------------------
  // File average
  // ---------------------------------------------------------------------

  function Sum(scores: seq<nat>): nat
  {
    if scores == [] then 0 else Sum(scores[..|scores| - 1]) + scores[|scores| - 1]
  }

  /** `computeAverageScore(methodReports)`, over the reports' `methodScore`
      values (an absent one read as 0): 100 and High with no methods, the
      mean otherwise. */
  function ComputeAverageScore(scores: seq<nat>): (r: AverageScore)
    ensures r.count > 0
    ensures scores == [] ==> r.total == 100 * r.count && r.level == High
    ensures scores != [] ==> r.total == Sum(scores) && r.count == |scores|
    ensures r.level == LevelOf(r.total, r.count)
  {
    if |scores| == 0 then AverageScore(100, 1, High)
    else AverageScore(Sum(scores), |scores|, LevelOf(Sum(scores), |scores|))
  }

  /** Every score lies between `lo` and `hi`, so the sum lies between
      `n * lo` and `n * hi`. */
  lemma {:induction false} SumBetween(scores: seq<nat>, lo: nat, hi: nat)
    requires forall i :: 0 <= i < |scores| ==> lo <= scores[i] <= hi
    ensures |scores| * lo <= Sum(scores) <= |scores| * hi
    decreases |scores|
  {
    if scores != [] {
      var n := |scores| - 1;
      SumBetween(scores[..n], lo, hi);
      assert |scores| * lo == n * lo + lo;
      assert |scores| * hi == n * hi + hi;
    }
  }

  /** The mean lies between the smallest and the largest method score:
      `lo <= total / count <= hi`. */
  lemma AverageBetween(scores: seq<nat>, lo: nat, hi: nat)
    requires scores != []
    requires forall i :: 0 <= i < |scores| ==> lo <= scores[i] <= hi
    ensures var r := ComputeAverageScore(scores); r.count * lo <= r.total <= r.count * hi
  {
    SumBetween(scores, lo, hi);
  }

  /** Methods all at full score give a file at full score, level High. */
  lemma AllFullAverage(scores: seq<nat>)
    requires forall i :: 0 <= i < |scores| ==> scores[i] == 100
    ensures ComputeAverageScore(scores).total == 100 * ComputeAverageScore(scores).count
    ensures ComputeAverageScore(scores).level == High
  {
    if scores != [] {
      AverageBetween(scores, 100, 100);
    }
  }
}
