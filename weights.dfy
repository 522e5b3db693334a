/**
 * Scoring weights: the default weight of each metric, which metrics are inverted (a risk, where
 * 100 - v contributes), merging caller-supplied weights over the defaults, and normalisation
 * so that the weights sum to one.
 */
module Weights {
  import opened Wrappers
  import opened Schemas

  datatype ScoringWeights = ScoringWeights(
    codeConsistency: real,
    reuseScore: real,
    aiDetectionRisk: real,
    cascadeRisk: real,
    responsiveScore: real,
    semanticScore: real,
    intentAlignment: real)
  {
    function Get(m: Metric): real {
      match m
      case CodeConsistency => codeConsistency
      case ReuseScore => reuseScore
      case AiDetectionRisk => aiDetectionRisk
      case CascadeRisk => cascadeRisk
      case ResponsiveScore => responsiveScore
      case SemanticScore => semanticScore
      case IntentAlignment => intentAlignment
    }

    /** The sum of the seven weights, in table order. */
    function Sum(): real {
      codeConsistency + reuseScore + aiDetectionRisk + cascadeRisk + responsiveScore + semanticScore + intentAlignment
    }
  }

  /** Weights a caller may supply: `None` leaves the metric's default in place. */
  datatype PartialWeights = PartialWeights(
    codeConsistency: Option<real>,
    reuseScore: Option<real>,
    aiDetectionRisk: Option<real>,
    cascadeRisk: Option<real>,
    responsiveScore: Option<real>,
    semanticScore: Option<real>,
    intentAlignment: Option<real>)
  {
    function Get(m: Metric): Option<real> {
      match m
      case CodeConsistency => codeConsistency
      case ReuseScore => reuseScore
      case AiDetectionRisk => aiDetectionRisk
      case CascadeRisk => cascadeRisk
      case ResponsiveScore => responsiveScore
      case SemanticScore => semanticScore
      case IntentAlignment => intentAlignment
    }
  }

  const DefaultWeights := ScoringWeights(1.0, 0.8, 0.6, 1.2, 1.0, 0.9, 1.1)

  /** The risk metrics: for these a lower value is better, so 100 - v is what counts. */
  const InvertedMetrics: seq<Metric> := [AiDetectionRisk, CascadeRisk]

  predicate IsInverted(m: Metric) {
    m in InvertedMetrics
  }

  /** The value a metric contributes: 100 - v for the inverted metrics, v otherwise. */
  function Effective(m: Metric, v: real): (r: real)
    ensures IsInverted(m) ==> r == 100.0 - v
    ensures !IsInverted(m) ==> r == v
  {
    if IsInverted(m) then 100.0 - v else v
  }

  lemma {:induction false} OnlyRisksInverted(m: Metric)
    ensures IsInverted(m) <==> (m == AiDetectionRisk || m == CascadeRisk)
  {
  }

  /** Custom weights spread over the defaults; no custom weights gives a copy of the defaults. */
  function MergeWeights(custom: Option<PartialWeights>): (r: ScoringWeights)
    ensures custom.None? ==> r == DefaultWeights
    ensures forall m :: custom.Some? && custom.value.Get(m).Some? ==> r.Get(m) == custom.value.Get(m).value
    ensures forall m :: (custom.None? || custom.value.Get(m).None?) ==> r.Get(m) == DefaultWeights.Get(m)
  {
    match custom
    case None => DefaultWeights
    case Some(c) =>
      ScoringWeights(
        c.codeConsistency.GetOr(DefaultWeights.codeConsistency),
        c.reuseScore.GetOr(DefaultWeights.reuseScore),
        c.aiDetectionRisk.GetOr(DefaultWeights.aiDetectionRisk),
        c.cascadeRisk.GetOr(DefaultWeights.cascadeRisk),
        c.responsiveScore.GetOr(DefaultWeights.responsiveScore),
        c.semanticScore.GetOr(DefaultWeights.semanticScore),
        c.intentAlignment.GetOr(DefaultWeights.intentAlignment))
  }

  lemma {:induction false} DefaultWeightsValues()
    ensures MergeWeights(None) == ScoringWeights(1.0, 0.8, 0.6, 1.2, 1.0, 0.9, 1.1)
    ensures DefaultWeights.Sum() == 6.6
  {
  }

  /** Each weight divided by the sum of all weights, unless that sum is zero. */
  function NormalizeWeights(w: ScoringWeights): (r: ScoringWeights)
    ensures w.Sum() == 0.0 ==> r == w
    ensures w.Sum() != 0.0 ==> r.Sum() == 1.0
    ensures w.Sum() != 0.0 ==> r == Scaled(w, w.Sum())
  {
    var s := w.Sum();
    if s == 0.0 then w
    else
      var r := ScoringWeights(
        w.codeConsistency / s, w.reuseScore / s, w.aiDetectionRisk / s, w.cascadeRisk / s,
        w.responsiveScore / s, w.semanticScore / s, w.intentAlignment / s);
      NormalizedSum(w, r, s);
      r
  }

  lemma {:induction false} QuotientSum(x: real, y: real, s: real)
    requires s != 0.0
    ensures x / s + y / s == (x + y) / s
  {
  }

  lemma {:induction false} NormalizedSum(w: ScoringWeights, r: ScoringWeights, s: real)
    requires s != 0.0 && s == w.Sum()
    requires r == ScoringWeights(
        w.codeConsistency / s, w.reuseScore / s, w.aiDetectionRisk / s, w.cascadeRisk / s,
        w.responsiveScore / s, w.semanticScore / s, w.intentAlignment / s)
    ensures r.Sum() == 1.0
  {
    QuotientSum(w.codeConsistency, w.reuseScore, s);
    var s2 := w.codeConsistency + w.reuseScore;
    QuotientSum(s2, w.aiDetectionRisk, s);
    var s3 := s2 + w.aiDetectionRisk;
    QuotientSum(s3, w.cascadeRisk, s);
    var s4 := s3 + w.cascadeRisk;
    QuotientSum(s4, w.responsiveScore, s);
    var s5 := s4 + w.responsiveScore;
    QuotientSum(s5, w.semanticScore, s);
    var s6 := s5 + w.semanticScore;
    QuotientSum(s6, w.intentAlignment, s);
  }

  /** Every weight divided by `s`. */
  function Scaled(w: ScoringWeights, s: real): ScoringWeights
    requires s != 0.0
  {
    ScoringWeights(
      w.codeConsistency / s, w.reuseScore / s, w.aiDetectionRisk / s, w.cascadeRisk / s,
      w.responsiveScore / s, w.semanticScore / s, w.intentAlignment / s)
  }

  lemma {:induction false} ScaledGet(w: ScoringWeights, s: real, m: Metric)
    requires s != 0.0
    ensures Scaled(w, s).Get(m) == w.Get(m) / s
  {
  }

  /** Each normalised weight, scaled back by the sum, is the original weight. */
  lemma {:induction false} NormalizedGet(w: ScoringWeights, m: Metric)
    ensures w.Sum() != 0.0 ==> NormalizeWeights(w).Get(m) * w.Sum() == w.Get(m)
  {
    if w.Sum() != 0.0 {
      ScaledGet(w, w.Sum(), m);
    }
  }

  lemma {:induction false} CrossOfProducts(p: real, q: real, x: real, y: real, s: real)
    ensures p * s == x && q * s == y ==> p * y == q * x
  {
    if p * s == x && q * s == y {
      assert p * y == p * (q * s);
      assert q * x == q * (p * s);
    }
  }

  /** Normalisation keeps every pairwise ratio of weights. */
  lemma {:induction false} NormalizePreservesRatios(w: ScoringWeights, a: Metric, b: Metric)
    requires w.Sum() != 0.0
    ensures NormalizeWeights(w).Get(a) * w.Get(b) == NormalizeWeights(w).Get(b) * w.Get(a)
  {
    NormalizedGet(w, a);
    NormalizedGet(w, b);
    CrossOfProducts(NormalizeWeights(w).Get(a), NormalizeWeights(w).Get(b), w.Get(a), w.Get(b), w.Sum());
  }
}
