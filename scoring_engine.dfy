/**
 * The scoring engine: the weighted overall score of a breakdown, the tolerance check that
 * decides whether a reported overall score is kept, flags derived from the breakdown, a
 * one-sentence summary naming the weakest area, and the approval gate.
 */
module ScoringEngine {
  import opened Wrappers
  import opened JsStrings
  import opened JsMath
  import opened Schemas
  import opened Weights
  import opened Criteria

  // ---------------------------------------------------------------------------
  // Specification of the overall score

  /** The weighted sum of effective values over the first `n` metrics of the weight table. */
  function WeightedSum(w: ScoringWeights, b: Breakdown, n: nat): real
    requires n <= |Metrics|
  {
    if n == 0 then 0.0
    else WeightedSum(w, b, n - 1) + Effective(Metrics[n - 1], b.Get(Metrics[n - 1])) * w.Get(Metrics[n - 1])
  }

  /** The sum of the first `n` weights of the weight table. */
  function TotalWeight(w: ScoringWeights, n: nat): real
    requires n <= |Metrics|
  {
    if n == 0 then 0.0 else TotalWeight(w, n - 1) + w.Get(Metrics[n - 1])
  }

  lemma {:induction false} TotalWeightIsSum(w: ScoringWeights)
    ensures TotalWeight(w, |Metrics|) == w.Sum()
  {
    assert TotalWeight(w, 1) == w.codeConsistency;
    assert TotalWeight(w, 2) == TotalWeight(w, 1) + w.reuseScore;
    assert TotalWeight(w, 3) == TotalWeight(w, 2) + w.aiDetectionRisk;
    assert TotalWeight(w, 4) == TotalWeight(w, 3) + w.cascadeRisk;
    assert TotalWeight(w, 5) == TotalWeight(w, 4) + w.responsiveScore;
    assert TotalWeight(w, 6) == TotalWeight(w, 5) + w.semanticScore;
    assert TotalWeight(w, 7) == TotalWeight(w, 6) + w.intentAlignment;
  }

  /** round(sum of w(m) * v'(m) / sum of w(m)), where v' is 100 - v for the inverted metrics. */
  function OverallScore(w: ScoringWeights, b: Breakdown): int
    requires w.Sum() != 0.0
  {
    TotalWeightIsSum(w);
    Round(WeightedSum(w, b, |Metrics|) / TotalWeight(w, |Metrics|))
  }

  predicate NonNegative(w: ScoringWeights) {
    forall m :: w.Get(m) >= 0.0
  }

  lemma {:induction false} WeightedSumBounds(w: ScoringWeights, b: Breakdown, n: nat)
    requires n <= |Metrics|
    requires NonNegative(w) && ValidBreakdown(b)
    ensures 0.0 <= WeightedSum(w, b, n) <= 100.0 * TotalWeight(w, n)
  {
    if n > 0 {
      WeightedSumBounds(w, b, n - 1);
      var m := Metrics[n - 1];
      var e := Effective(m, b.Get(m));
      assert Percent(b.Get(m));
      assert 0.0 <= e <= 100.0;
      assert w.Get(m) >= 0.0;
      assert 0.0 <= e * w.Get(m) <= 100.0 * w.Get(m);
      assert TotalWeight(w, n) == TotalWeight(w, n - 1) + w.Get(m);
      assert WeightedSum(w, b, n) == WeightedSum(w, b, n - 1) + e * w.Get(m);
      assert 100.0 * TotalWeight(w, n) == 100.0 * TotalWeight(w, n - 1) + 100.0 * w.Get(m);
    }
  }

  /** With metric values in [0, 100] and non-negative weights of positive total, the score is in [0, 100]. */
  lemma {:induction false} OverallScoreInRange(w: ScoringWeights, b: Breakdown)
    requires NonNegative(w) && w.Sum() > 0.0 && ValidBreakdown(b)
    ensures 0 <= OverallScore(w, b) <= 100
  {
    TotalWeightIsSum(w);
    WeightedSumBounds(w, b, |Metrics|);
    var s, t := WeightedSum(w, b, |Metrics|), w.Sum();
    assert 0.0 <= s / t <= 100.0 by {
      assert s / t * t == s;
    }
    RoundWithin(s / t, 0, 100);
  }

  /** A breakdown with every effective value equal to `v` scores round(v), whatever the weights. */
  lemma {:induction false} UniformWeightedSum(w: ScoringWeights, b: Breakdown, v: real, n: nat)
    requires n <= |Metrics|
    requires forall m :: Effective(m, b.Get(m)) == v
    ensures WeightedSum(w, b, n) == v * TotalWeight(w, n)
  {
    if n > 0 {
      UniformWeightedSum(w, b, v, n - 1);
    }
  }

  /** Metrics at 90 with both risks at 10 score 90 under the default weights. */
  lemma {:induction false} ExampleNinety()
    ensures OverallScore(DefaultWeights, Breakdown(90.0, 90.0, 10.0, 10.0, 90.0, 90.0, 90.0)) == 90
  {
    var b := Breakdown(90.0, 90.0, 10.0, 10.0, 90.0, 90.0, 90.0);
    UniformWeightedSum(DefaultWeights, b, 90.0, |Metrics|);
    TotalWeightIsSum(DefaultWeights);
  }

  // ---------------------------------------------------------------------------
  // Flags

  /** The text around the value in each metric's warning, in metric order. */
  const WarningTexts: seq<(string, string)> := [
    ("Low code consistency (", "%). The change may not match surrounding patterns."),
    ("Low reuse score (", "%). Consider using existing utilities instead."),
    ("High AI detection risk (", "%). The change may appear AI-generated."),
    ("High cascade risk (", "%). CSS changes may affect other elements."),
    ("Low responsive score (", "%). Mobile/tablet breakpoints may be affected."),
    ("Low semantic score (", "%). HTML structure may not be semantic."),
    ("Low intent alignment (", "%). The change may not match user expectations.")]

  /** Each metric's message for a high score, in metric order. */
  const PositiveTexts: seq<string> := [
    "Excellent code consistency with existing patterns.",
    "Great use of existing utilities and components.",
    "Change appears natural and human-written.",
    "CSS changes are well-scoped with low cascade risk.",
    "Excellent responsive design considerations.",
    "Semantic HTML structure preserved.",
    "Change aligns well with user intent."]

  function WarningMessage(m: Metric, value: real): string {
    var t := WarningTexts[MetricIndex(m)];
    t.0 + NumberText(value) + t.1
  }

  function PositiveMessage(m: Metric): string {
    PositiveTexts[MetricIndex(m)]
  }

  /** The flag one metric contributes, if any. */
  function FlagFor(m: Metric, value: real): Option<Flag> {
    var e := EvaluateScore(MetricKey(m), value);
    if e == Bad then Some(Flag("warning", WarningMessage(m, value), None, 0.9))
    else if e == Good && value >= 90.0 then Some(Flag("info", PositiveMessage(m), None, 0.8))
    else None
  }

  /** The flags of the first `n` metrics, in breakdown order. */
  function Flags(b: Breakdown, n: nat): seq<Flag>
    requires n <= |Metrics|
  {
    if n == 0 then []
    else
      var f := FlagFor(Metrics[n - 1], b.Get(Metrics[n - 1]));
      Flags(b, n - 1) + (if f.Some? then [f.value] else [])
  }

  /** The flags of one more metric: its flag, if it has one, comes last. */
  lemma {:induction false} FlagsNext(b: Breakdown, i: nat, flag: Option<Flag>)
    ensures i < |Metrics| && flag == FlagFor(Metrics[i], b.Get(Metrics[i])) ==>
      Flags(b, i + 1) == Flags(b, i) + (if flag.Some? then [flag.value] else [])
  {
  }

  /** At most one flag per metric. */
  lemma {:induction false} FlagsAtMostOnePerMetric(b: Breakdown, n: nat)
    requires n <= |Metrics|
    ensures |Flags(b, n)| <= n
  {
    if n > 0 {
      FlagsAtMostOnePerMetric(b, n - 1);
    }
  }

  /** A metric's flag is a warning with confidence 0.9 exactly when it is bad, and an info flag with confidence 0.8 exactly when it is good and at least 90. */
  lemma {:induction false} FlagForClassifies(m: Metric, value: real)
    ensures FlagFor(m, value).Some? && FlagFor(m, value).value.kind == "warning" <==>
      EvaluateScore(MetricKey(m), value) == Bad
    ensures FlagFor(m, value).Some? && FlagFor(m, value).value.kind == "info" <==>
      EvaluateScore(MetricKey(m), value) == Good && value >= 90.0
    ensures FlagFor(m, value).Some? ==> ValidFlag(FlagFor(m, value).value)
    ensures FlagFor(m, value).Some? ==>
      FlagFor(m, value).value.confidence == (if FlagFor(m, value).value.kind == "warning" then 0.9 else 0.8)
  {
  }

  /** An inverted metric is good only at or below 30, so it never earns an info flag. */
  lemma {:induction false} InvertedNeverInfo(m: Metric, value: real)
    requires IsInverted(m)
    ensures FlagFor(m, value).None? || FlagFor(m, value).value.kind == "warning"
  {
    OnlyRisksInverted(m);
    EvaluateMetric(m, value);
    RiskThresholds();
    if EvaluateScore(MetricKey(m), value) == Good {
      assert value <= 30.0;
    }
  }

  // ---------------------------------------------------------------------------
  // Summary

  function WeakAreaName(m: Metric): string {
    match m
    case CodeConsistency => "code consistency"
    case ReuseScore => "code reuse"
    case AiDetectionRisk => "natural appearance"
    case CascadeRisk => "CSS scoping"
    case ResponsiveScore => "responsive design"
    case SemanticScore => "semantic structure"
    case IntentAlignment => "intent alignment"
  }

  /**
   * The weakest area among the first `n` metrics: the running minimum of the effective values,
   * starting from code consistency at 100 and moving only on a strictly smaller value.
   */
  function Weakest(b: Breakdown, n: nat): (Metric, real)
    requires n <= |Metrics|
  {
    if n == 0 then (CodeConsistency, 100.0)
    else
      var (k, v) := Weakest(b, n - 1);
      var e := Effective(Metrics[n - 1], b.Get(Metrics[n - 1]));
      if e < v then (Metrics[n - 1], e) else (k, v)
  }

  /**
   * The weakest area has the smallest effective value (or 100 if none is smaller), it is the
   * earliest metric with that value, and it is code consistency when no value is below 100.
   */
  lemma {:induction false} WeakestIsFirstMinimum(b: Breakdown, n: nat)
    requires n <= |Metrics|
    ensures var (k, v) := Weakest(b, n);
      && v <= 100.0
      && (forall i :: 0 <= i < n ==> v <= Effective(Metrics[i], b.Get(Metrics[i])))
      && (v < 100.0 ==> exists i :: 0 <= i < n && Metrics[i] == k && v == Effective(k, b.Get(k))
                                   && forall j :: 0 <= j < i ==> v < Effective(Metrics[j], b.Get(Metrics[j])))
      && (v == 100.0 ==> k == CodeConsistency)
  {
    if n > 0 {
      WeakestIsFirstMinimum(b, n - 1);
      var (k, v) := Weakest(b, n - 1);
      var e := Effective(Metrics[n - 1], b.Get(Metrics[n - 1]));
      if e < v {
        assert forall j :: 0 <= j < n - 1 ==> e < Effective(Metrics[j], b.Get(Metrics[j]));
      }
    }
  }

  function SummaryText(overall: real, weakest: Metric): string {
    var labelText := GetScoreLabel(overall);
    var name := WeakAreaName(weakest);
    if overall >= 80.0 then labelText + " change. Well-structured with good attention to " + name + "."
    else if overall >= 60.0 then labelText + ". Consider improving " + name + " before merging."
    else labelText + ". Significant concerns with " + name + ". Review recommended."
  }

  // ---------------------------------------------------------------------------
  // Approval gate

  /** Approve unless the overall score is under 60 or one of the hard limits is crossed. */
  function ShouldApprove(overall: real, b: Breakdown): (r: bool)
    ensures r <==> overall >= 60.0 && b.cascadeRisk <= 80.0 && b.semanticScore >= 40.0 && b.intentAlignment >= 50.0
  {
    if overall < 60.0 then false
    else if b.cascadeRisk > 80.0 then false
    else if b.semanticScore < 40.0 then false
    else if b.intentAlignment < 50.0 then false
    else true
  }

  /** The gate is monotone: a better overall score and better gated metrics never revoke approval. */
  lemma {:induction false} ApprovalMonotone(o1: real, b1: Breakdown, o2: real, b2: Breakdown)
    requires ShouldApprove(o1, b1)
    requires o1 <= o2 && b2.cascadeRisk <= b1.cascadeRisk
    requires b1.semanticScore <= b2.semanticScore && b1.intentAlignment <= b2.intentAlignment
    ensures ShouldApprove(o2, b2)
  {
  }

  /** An approved change is at least "Needs Review" and never shown in red. */
  lemma {:induction false} ApprovedNotRed(overall: real, b: Breakdown)
    requires ShouldApprove(overall, b)
    ensures LabelRank(overall) >= 2 && GetScoreColor(overall) != Red
  {
  }

  const Tolerance: real := 10.0

  // ---------------------------------------------------------------------------
  // The engine

  class ScoringEngine {
    const weights: ScoringWeights

    constructor(custom: Option<PartialWeights>)
      ensures weights == MergeWeights(custom)
    {
      weights := MergeWeights(custom);
    }

    /** `None` is the NaN or infinity that a total weight of 0 gives. */
    method CalculateOverallScore(breakdown: Breakdown) returns (score: Option<int>)
      ensures score.None? <==> weights.Sum() == 0.0
      ensures score.Some? ==> score.value == OverallScore(weights, breakdown)
    {
      var weightedSum := 0.0;
      var totalWeight := 0.0;
      var i := 0;
      while i < |Metrics|
        invariant 0 <= i <= |Metrics|
        invariant weightedSum == WeightedSum(weights, breakdown, i)
        invariant totalWeight == TotalWeight(weights, i)
      {
        var m := Metrics[i];
        var value := breakdown.Get(m);
        if m in InvertedMetrics {
          value := 100.0 - value;
        }
        weightedSum := weightedSum + value * weights.Get(m);
        totalWeight := totalWeight + weights.Get(m);
        i := i + 1;
      }
      TotalWeightIsSum(weights);
      score := if totalWeight == 0.0 then None else Some(Round(weightedSum / totalWeight));
    }

    /**
     * Keep the reported overall score if it is within the tolerance of the recomputed one. With a
     * total weight of 0 the recomputed score is NaN, no distance exceeds the tolerance, and the
     * score is kept.
     */
    function ValidateAndRecalculate(p: PRScore): (r: PRScore)
      ensures r == p.(overall := r.overall)
      ensures weights.Sum() == 0.0 ==> r == p
      ensures weights.Sum() != 0.0 && Abs(p.overall - OverallScore(weights, p.breakdown) as real) > Tolerance ==>
        r.overall == OverallScore(weights, p.breakdown) as real
      ensures weights.Sum() != 0.0 && Abs(p.overall - OverallScore(weights, p.breakdown) as real) <= Tolerance ==>
        r.overall == p.overall
    {
      if weights.Sum() == 0.0 then p
      else
        var recalculated := OverallScore(weights, p.breakdown) as real;
        if Abs(p.overall - recalculated) > Tolerance then p.(overall := recalculated) else p
    }

    method GenerateFlags(breakdown: Breakdown) returns (flags: seq<Flag>)
      ensures flags == Flags(breakdown, |Metrics|)
    {
      flags := [];
      var i := 0;
      while i < |Metrics|
        invariant 0 <= i <= |Metrics|
        invariant flags == Flags(breakdown, i)
      {
        flags := PushFlag(breakdown, flags, i);
        i := i + 1;
      }
    }

    /** One turn of `generateFlags`: the flag of the `i`-th metric, if it has one, is pushed. */
    method PushFlag(breakdown: Breakdown, flags: seq<Flag>, i: nat) returns (flags': seq<Flag>)
      requires i < |Metrics| && flags == Flags(breakdown, i)
      ensures flags' == Flags(breakdown, i + 1)
    {
      var m := Metrics[i];
      var value := breakdown.Get(m);
      var flag := FlagFor(m, value);
      FlagsNext(breakdown, i, flag);
      flags' := flags;
      if flag.Some? {
        flags' := flags + [flag.value];
      }
    }

    method GetSummary(overall: real, breakdown: Breakdown) returns (summary: string)
      ensures summary == SummaryText(overall, Weakest(breakdown, |Metrics|).0)
    {
      var weakestKey := CodeConsistency;
      var weakestValue := 100.0;
      var i := 0;
      while i < |Metrics|
        invariant 0 <= i <= |Metrics|
        invariant (weakestKey, weakestValue) == Weakest(breakdown, i)
      {
        var m := Metrics[i];
        var effective := if m in InvertedMetrics then 100.0 - breakdown.Get(m) else breakdown.Get(m);
        if effective < weakestValue {
          weakestValue := effective;
          weakestKey := m;
        }
        i := i + 1;
      }
      summary := SummaryText(overall, weakestKey);
    }
  }

  /** After validation the overall score is within the tolerance of the recomputed score. */
  lemma {:induction false} ValidatedWithinTolerance(e: ScoringEngine, p: PRScore)
    requires e.weights.Sum() != 0.0
    ensures Abs(e.ValidateAndRecalculate(p).overall - OverallScore(e.weights, p.breakdown) as real) <= Tolerance
  {
  }

  /** Validating a validated score changes nothing. */
  lemma {:induction false} ValidateIdempotent(e: ScoringEngine, p: PRScore)
    ensures e.ValidateAndRecalculate(e.ValidateAndRecalculate(p)) == e.ValidateAndRecalculate(p)
  {
    var q := e.ValidateAndRecalculate(p);
    assert q.breakdown == p.breakdown;
  }

  /** A valid score stays valid when the engine's weights are non-negative with positive total. */
  lemma {:induction false} ValidatePreservesValidity(e: ScoringEngine, p: PRScore)
    requires NonNegative(e.weights) && e.weights.Sum() > 0.0 && ValidPRScore(p)
    ensures ValidPRScore(e.ValidateAndRecalculate(p))
  {
    OverallScoreInRange(e.weights, p.breakdown);
  }
}
