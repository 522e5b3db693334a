/**
 * The scoring criteria table: per metric a good and a bad threshold and whether lower is better;
 * the three-way classification of a metric value against it; the label and colour of an
 * overall score.
 */
module Criteria {
  import opened Wrappers
  import opened Schemas
  import opened Weights

  datatype Criterion = Criterion(
    key: string,
    name: string,
    description: string,
    goodThreshold: real,
    badThreshold: real,
    isInverted: bool)

  const ScoringCriteria: seq<Criterion> := [
    Criterion("codeConsistency", "Code Consistency",
      "How well the change matches surrounding code patterns and conventions", 80.0, 50.0, false),
    Criterion("reuseScore", "Code Reuse",
      "Whether the change leverages existing utilities vs creating redundant ones", 75.0, 40.0, false),
    Criterion("aiDetectionRisk", "AI Detection Risk",
      "Likelihood a reviewer would flag this as AI-generated", 30.0, 70.0, true),
    Criterion("cascadeRisk", "CSS Cascade Risk",
      "Risk of CSS changes affecting other elements unexpectedly", 30.0, 60.0, true),
    Criterion("responsiveScore", "Responsive Design",
      "Quality of responsive design considerations", 75.0, 45.0, false),
    Criterion("semanticScore", "Semantic HTML",
      "Preservation of semantic HTML structure", 80.0, 50.0, false),
    Criterion("intentAlignment", "Intent Alignment",
      "How well the change matches what the user likely intended", 85.0, 60.0, false)
  ]

  /** The first entry of `table` with the given key (`Array.prototype.find`). */
  function Find(table: seq<Criterion>, key: string): (r: Option<Criterion>)
    ensures r.Some? ==> r.value in table && r.value.key == key
    ensures r.None? <==> forall i :: 0 <= i < |table| ==> table[i].key != key
  {
    if |table| == 0 then None
    else if table[0].key == key then Some(table[0])
    else Find(table[1..], key)
  }

  function GetCriteria(key: string): Option<Criterion> {
    Find(ScoringCriteria, key)
  }

  /** The entry of a metric: the table has one for each of the seven metrics. */
  lemma {:induction false} CriterionOfMetric(m: Metric) returns (c: Criterion)
    ensures GetCriteria(MetricKey(m)) == Some(c)
    ensures c == ScoringCriteria[MetricIndex(m)]
    ensures c.isInverted <==> IsInverted(m)
  {
    c := ScoringCriteria[MetricIndex(m)];
    KeyAt(m);
    FindAt(ScoringCriteria, MetricIndex(m), MetricKey(m));
  }

  /** The entry at a metric's index carries its key, and no earlier entry does. */
  lemma {:induction false} KeyAt(m: Metric)
    ensures ScoringCriteria[MetricIndex(m)].key == MetricKey(m)
    ensures ScoringCriteria[MetricIndex(m)].isInverted <==> IsInverted(m)
    ensures forall j :: 0 <= j < MetricIndex(m) ==> ScoringCriteria[j].key != MetricKey(m)
  {
    match m
    case CodeConsistency =>
    case ReuseScore =>
    case AiDetectionRisk =>
    case CascadeRisk =>
    case ResponsiveScore =>
    case SemanticScore =>
    case IntentAlignment =>
  }

  lemma {:induction false} FindAt(table: seq<Criterion>, i: nat, key: string)
    requires i < |table| && table[i].key == key
    requires forall j :: 0 <= j < i ==> table[j].key != key
    ensures Find(table, key) == Some(table[i])
  {
    if i > 0 {
      FindAt(table[1..], i - 1, key);
    }
  }

  function MetricIndex(m: Metric): (i: nat)
    ensures i < 7
  {
    match m
    case CodeConsistency => 0
    case ReuseScore => 1
    case AiDetectionRisk => 2
    case CascadeRisk => 3
    case ResponsiveScore => 4
    case SemanticScore => 5
    case IntentAlignment => 6
  }

  datatype Evaluation = Good | Neutral | Bad

  /** Classify a metric value against its criterion; a key without an entry is neutral. */
  function EvaluateScore(key: string, value: real): Evaluation {
    match GetCriteria(key)
    case None => Neutral
    case Some(c) =>
      if c.isInverted then
        if value <= c.goodThreshold then Good
        else if value >= c.badThreshold then Bad
        else Neutral
      else
        if value >= c.goodThreshold then Good
        else if value <= c.badThreshold then Bad
        else Neutral
  }

  /** In every entry the good range and the bad range are disjoint. */
  lemma {:induction false} ThresholdsDisjoint(i: nat)
    requires i < |ScoringCriteria|
    ensures ScoringCriteria[i].isInverted ==> ScoringCriteria[i].goodThreshold < ScoringCriteria[i].badThreshold
    ensures !ScoringCriteria[i].isInverted ==> ScoringCriteria[i].badThreshold < ScoringCriteria[i].goodThreshold
  {
  }

  lemma {:induction false} EvaluateUnknownKey(key: string, value: real)
    requires forall m: Metric :: key != MetricKey(m)
    ensures EvaluateScore(key, value) == Neutral
  {
    assert key != MetricKey(CodeConsistency) && key != MetricKey(ReuseScore);
    assert key != MetricKey(AiDetectionRisk) && key != MetricKey(CascadeRisk);
    assert key != MetricKey(ResponsiveScore) && key != MetricKey(SemanticScore);
    assert key != MetricKey(IntentAlignment);
  }

  /**
   * The classification as an if-and-only-if per class: it does not depend on the order in which
   * the good and the bad threshold are checked.
   */
  lemma {:induction false} EvaluateMetric(m: Metric, value: real)
    ensures var c := ScoringCriteria[MetricIndex(m)];
      && (EvaluateScore(MetricKey(m), value) == Good <==>
           (if c.isInverted then value <= c.goodThreshold else value >= c.goodThreshold))
      && (EvaluateScore(MetricKey(m), value) == Bad <==>
           (if c.isInverted then value >= c.badThreshold else value <= c.badThreshold))
  {
    var c := CriterionOfMetric(m);
    ThresholdsDisjoint(MetricIndex(m));
    EvaluateWith(MetricKey(m), value, c);
  }

  /** The classification against an entry whose good and bad ranges are disjoint. */
  lemma {:induction false} EvaluateWith(key: string, value: real, c: Criterion)
    requires GetCriteria(key) == Some(c)
    requires c.isInverted ==> c.goodThreshold < c.badThreshold
    requires !c.isInverted ==> c.badThreshold < c.goodThreshold
    ensures EvaluateScore(key, value) == Good <==>
      (if c.isInverted then value <= c.goodThreshold else value >= c.goodThreshold)
    ensures EvaluateScore(key, value) == Bad <==>
      (if c.isInverted then value >= c.badThreshold else value <= c.badThreshold)
  {
  }

  lemma {:induction false} RiskThresholds()
    ensures ScoringCriteria[MetricIndex(AiDetectionRisk)].goodThreshold == 30.0
    ensures ScoringCriteria[MetricIndex(AiDetectionRisk)].badThreshold == 70.0
    ensures ScoringCriteria[MetricIndex(CascadeRisk)].goodThreshold == 30.0
    ensures ScoringCriteria[MetricIndex(CascadeRisk)].badThreshold == 60.0
  {
  }

  // ---------------------------------------------------------------------------
  // Labels and colours of an overall score

  const Labels: seq<string> := ["Poor", "Concerning", "Needs Review", "Acceptable", "Good", "Excellent"]

  /** The position of a score's label in `Labels`, from worst to best. */
  function LabelRank(score: real): (k: nat)
    ensures k < 6
  {
    if score >= 90.0 then 5
    else if score >= 80.0 then 4
    else if score >= 70.0 then 3
    else if score >= 60.0 then 2
    else if score >= 50.0 then 1
    else 0
  }

  function GetScoreLabel(score: real): (r: string)
    ensures r == Labels[LabelRank(score)]
  {
    if score >= 90.0 then "Excellent"
    else if score >= 80.0 then "Good"
    else if score >= 70.0 then "Acceptable"
    else if score >= 60.0 then "Needs Review"
    else if score >= 50.0 then "Concerning"
    else "Poor"
  }

  /** A higher score never gets a worse label. */
  lemma {:induction false} LabelMonotone(a: real, b: real)
    requires a <= b
    ensures LabelRank(a) <= LabelRank(b)
  {
  }

  /** The cut-offs: a score gets label k exactly when it is at least the k-th cut-off and below the next. */
  lemma {:induction false} LabelCutoffs(score: real, k: nat)
    requires k < 6
    ensures LabelRank(score) == k <==>
      (k == 0 || score >= 40.0 + 10.0 * k as real) && (k == 5 || score < 50.0 + 10.0 * k as real)
  {
  }

  const Green := "#10B981"
  const Amber := "#F59E0B"
  const Red := "#EF4444"

  function GetScoreColor(score: real): (r: string)
    ensures r == Green <==> score >= 80.0
    ensures r == Amber <==> 60.0 <= score < 80.0
    ensures r == Red <==> score < 60.0
  {
    if score >= 80.0 then Green
    else if score >= 60.0 then Amber
    else Red
  }

  /** The colour agrees with the label: green for Good and better, amber down to Needs Review. */
  lemma {:induction false} ColorFollowsLabel(score: real)
    ensures GetScoreColor(score) == Green <==> LabelRank(score) >= 4
    ensures GetScoreColor(score) == Amber <==> LabelRank(score) in {2, 3}
    ensures GetScoreColor(score) == Red <==> LabelRank(score) <= 1
  {
  }
}
