/**
 * The server's health score (`calculate_predictive_score`) and the
 * maintenance insight derived from a stored score (risk level, action,
 * estimated cost in `get_predictive_maintenance`).
 */
module Scoring {
  import opened Wrappers

  /** The score a status starts from; an unknown status starts at 50. */
  function BaseScore(status: string): (b: int)
    ensures 15 <= b <= 85
  {
    if status == "online" then 85
    else if status == "warning" then 45
    else if status == "critical" then 15
    else if status == "offline" then 25
    else 50
  }

  function Sum(values: seq<real>): real
    decreases |values|
  {
    if values == [] then 0.0 else Sum(values[..|values| - 1]) + values[|values| - 1]
  }

  /** The mean of the metric values, when there are any. */
  function Average(values: seq<real>): real
    requires values != []
  {
    Sum(values) / |values| as real
  }

  function Max(a: int, b: int): int {
    if a >= b then a else b
  }

  function Min(a: int, b: int): int {
    if a <= b then a else b
  }

  /**
   * `calculate_predictive_score(status, metrics)`, given the metric values.
   * A mean above 90 costs 20 points, one below 10 costs 15, never going
   * under 10; the result is clamped to `[0, 100]`.
   */
  function PredictiveScore(status: string, values: seq<real>): (score: int)
    ensures 10 <= score <= 85
    ensures score <= BaseScore(status)
  {
    var base := BaseScore(status);
    var adjusted :=
      if values == [] then base
      else if Average(values) > 90.0 then Max(10, base - 20)
      else if Average(values) < 10.0 then Max(10, base - 15)
      else base;
    Max(0, Min(100, adjusted))
  }

  /** The mean is above 90 iff the total is above 90 per value; likewise below 10. */
  lemma AverageThresholds(values: seq<real>)
    requires values != []
    ensures Average(values) > 90.0 <==> Sum(values) > 90.0 * |values| as real
    ensures Average(values) < 10.0 <==> Sum(values) < 10.0 * |values| as real
  {
    MeanCompare(Sum(values), |values| as real, 90.0);
    MeanCompare(Sum(values), |values| as real, 10.0);
  }

  /** Dividing a total by a positive count keeps its order against `t` times the count, both ways. */
  lemma MeanCompare(total: real, n: real, t: real)
    requires n > 0.0
    ensures total / n > t <==> total > t * n
    ensures total / n < t <==> total < t * n
  {
    var a := total / n;
    assert a * n == total;
    assert a * n - t * n == (a - t) * n;
    if a > t {
      assert (a - t) * n > 0.0;
    } else if a < t {
      assert (t - a) * n > 0.0;
    } else {
      assert a * n == t * n;
    }
  }

  /** The score is the base score exactly when there are no values or the mean lies in `[10, 90]`. */
  lemma ScoreKeepsBase(status: string, values: seq<real>)
    ensures PredictiveScore(status, values) == BaseScore(status) <==>
              values == [] || 10.0 <= Average(values) <= 90.0
  {
  }

  /**
   * For a fixed status, once the mean is above 90 the score no longer depends
   * on it; a critical device then hits the floor of 10.
   */
  lemma ScoreFlatAbove90(status: string, v: seq<real>, w: seq<real>)
    requires v != [] && w != [] && Average(v) > 90.0 && Average(w) > 90.0
    ensures PredictiveScore(status, v) == PredictiveScore(status, w) == Max(10, BaseScore(status) - 20)
    ensures status == "critical" ==> PredictiveScore(status, v) == 10
  {
  }

  /**
   * For a fixed status, once the mean is below 10 the score no longer depends
   * on it: `max(10, base - 15)`, so a critical or offline device gets 10.
   */
  lemma ScoreFlatBelow10(status: string, v: seq<real>, w: seq<real>)
    requires v != [] && w != [] && Average(v) < 10.0 && Average(w) < 10.0
    ensures PredictiveScore(status, v) == PredictiveScore(status, w) == Max(10, BaseScore(status) - 15)
    ensures status == "critical" || status == "offline" ==> PredictiveScore(status, v) == 10
  {
  }

  /** A critical device with CPU 95 and memory 50 (mean 72.5) keeps its base score 15. */
  lemma CriticalCpuExample()
    ensures PredictiveScore("critical", [95.0, 50.0]) == 15
  {
    assert Sum([95.0, 50.0]) == 145.0 by {
      assert [95.0, 50.0][..1] == [95.0];
      assert Sum([95.0]) == 95.0 by { assert [95.0][..0] == []; }
    }
    assert Average([95.0, 50.0]) == 72.5;
  }

  /** Status order of the base scores: online, unknown, warning, offline, critical. */
  lemma BaseScoreOrder()
    ensures BaseScore("online") > BaseScore("unknown") > BaseScore("warning")
              > BaseScore("offline") > BaseScore("critical")
  {
  }

  // ---------------------------------------------------------------------
  // Predictive-maintenance insight

  /** `row['predictive_score'] or 75`: a missing or zero score counts as 75. */
  function StoredScore(stored: Option<int>): (score: int)
    ensures stored.Some? && stored.value != 0 ==> score == stored.value
    ensures stored.None? || stored.value == 0 ==> score == 75
  {
    if stored.None? || stored.value == 0 then 75 else stored.value
  }

  datatype Risk = High | Medium | Low

  /** `'high' if score < 30 else 'medium' if score < 60 else 'low'` */
  function RiskLevel(score: int): (r: Risk)
    ensures r == High <==> score < 30
    ensures r == Low <==> score >= 60
  {
    if score < 30 then High else if score < 60 then Medium else Low
  }

  function RecommendedAction(risk: Risk): (action: string)
    ensures action != ""
    ensures risk == Low <==> action == "Continue monitoring"
  {
    match risk
    case High => "Immediate maintenance required"
    case Medium => "Schedule maintenance soon"
    case Low => "Continue monitoring"
  }

  /** `150000 + (100 - score) * 5000` */
  function EstimatedCost(score: int): (cost: int)
    ensures score <= 100 <==> cost >= 150000
    ensures (cost - 150000) % 5000 == 0
  {
    150000 + (100 - score) * 5000
  }

  /** The three risk levels get three different actions. */
  lemma ActionsDistinct(a: Risk, b: Risk)
    ensures RecommendedAction(a) == RecommendedAction(b) <==> a == b
  {
  }

  /** Risk never falls and cost never falls as the score goes down. */
  lemma InsightMonotone(a: int, b: int)
    requires a <= b
    ensures EstimatedCost(a) >= EstimatedCost(b)
    ensures RiskLevel(b) == High ==> RiskLevel(a) == High
    ensures RiskLevel(a) == Low ==> RiskLevel(b) == Low
  {
  }

  /** A score in `[0, 100]` costs between 150 000 and 650 000, in steps of 5 000. */
  lemma CostRange(score: int)
    requires 0 <= score <= 100
    ensures 150000 <= EstimatedCost(score) <= 650000
    ensures (EstimatedCost(score) - 150000) % 5000 == 0
  {
  }

  /**
   * A score the server computed is stored as it is (it is never 0), and the
   * insight for it: a missing score reads as 75, low risk.
   */
  lemma StoredComputedScore(status: string, values: seq<real>)
    ensures StoredScore(Some(PredictiveScore(status, values))) == PredictiveScore(status, values)
    ensures RiskLevel(StoredScore(None)) == Low && EstimatedCost(StoredScore(None)) == 275000
  {
  }

  /** The risk a computed score gives, by status, for metrics with a mean in `[10, 90]`. */
  lemma RiskByStatus(status: string, values: seq<real>)
    requires values == [] || 10.0 <= Average(values) <= 90.0
    ensures status == "online" ==> RiskLevel(PredictiveScore(status, values)) == Low
    ensures status == "warning" || status == "unknown" ==> RiskLevel(PredictiveScore(status, values)) == Medium
    ensures status == "critical" || status == "offline" ==> RiskLevel(PredictiveScore(status, values)) == High
  {
    ScoreKeepsBase(status, values);
  }
}
