/**
 * The confidence figure of an analysis: a weighted mean of four or five factors rounded to
 * hundredths, the average self-reported confidence of an analysis's sections, and the label
 * and warning derived from a figure.
 */
module Confidence {
  import opened Wrappers
  import opened JsMath
  import opened Json
  import opened Records
  import opened Schemas

  /** The factors; `tokenUsageRatio` may be absent. */
  datatype ConfidenceFactors = ConfidenceFactors(
    contextAvailable: real,
    changeComplexity: real,
    llmConfidence: real,
    schemaValidation: real,
    tokenUsageRatio: Option<real>)

  const ContextWeight := 0.2
  const ComplexityWeight := 0.15
  const LlmWeight := 0.35
  const SchemaWeight := 0.25
  const TokenWeight := 0.05

  /** The weighted sum: complexity and token usage count inverted (1 - x); tokens only when given. */
  function FactorSum(f: ConfidenceFactors): real {
    f.contextAvailable * ContextWeight + (1.0 - f.changeComplexity) * ComplexityWeight
    + f.llmConfidence * LlmWeight + f.schemaValidation * SchemaWeight
    + (if f.tokenUsageRatio.Some? then (1.0 - f.tokenUsageRatio.value) * TokenWeight else 0.0)
  }

  /** The sum of the weights in use: 0.95, or 1 with the token factor. */
  function FactorWeight(f: ConfidenceFactors): (r: real)
    ensures r == (if f.tokenUsageRatio.Some? then 1.0 else 0.95)
  {
    ContextWeight + ComplexityWeight + LlmWeight + SchemaWeight
    + (if f.tokenUsageRatio.Some? then TokenWeight else 0.0)
  }

  /** `Math.round(x * 100) / 100`. */
  function RoundHundredths(x: real): (r: real)
    ensures x - 0.005 < r <= x + 0.005
  {
    var k := Round(x * 100.0) as real;
    assert k / 100.0 * 100.0 == k;
    k / 100.0
  }

  function ConfidenceFigure(f: ConfidenceFactors): real {
    RoundHundredths(FactorSum(f) / FactorWeight(f))
  }

  method CalculateConfidence(factors: ConfidenceFactors) returns (confidence: real)
    ensures confidence == ConfidenceFigure(factors)
  {
    var weightedSum := 0.0;
    var totalWeight := 0.0;
    weightedSum := weightedSum + factors.contextAvailable * ContextWeight;
    totalWeight := totalWeight + ContextWeight;
    var complexityScore := 1.0 - factors.changeComplexity;
    weightedSum := weightedSum + complexityScore * ComplexityWeight;
    totalWeight := totalWeight + ComplexityWeight;
    weightedSum := weightedSum + factors.llmConfidence * LlmWeight;
    totalWeight := totalWeight + LlmWeight;
    weightedSum := weightedSum + factors.schemaValidation * SchemaWeight;
    totalWeight := totalWeight + SchemaWeight;
    if factors.tokenUsageRatio.Some? {
      var tokenScore := 1.0 - factors.tokenUsageRatio.value;
      weightedSum := weightedSum + tokenScore * TokenWeight;
      totalWeight := totalWeight + TokenWeight;
    }
    confidence := Round((weightedSum / totalWeight) * 100.0) as real / 100.0;
  }

  predicate FactorsInUnit(f: ConfidenceFactors) {
    Unit(f.contextAvailable) && Unit(f.changeComplexity) && Unit(f.llmConfidence) && Unit(f.schemaValidation)
    && (f.tokenUsageRatio.Some? ==> Unit(f.tokenUsageRatio.value))
  }

  /** Rounding to hundredths keeps a value inside [0, 1]. */
  lemma {:induction false} RoundHundredthsInUnit(x: real)
    requires Unit(x)
    ensures Unit(RoundHundredths(x))
  {
    RoundWithin(x * 100.0, 0, 100);
  }

  /** Factors in [0, 1] give a confidence in [0, 1]. */
  lemma {:induction false} ConfidenceInUnit(f: ConfidenceFactors)
    requires FactorsInUnit(f)
    ensures Unit(ConfidenceFigure(f))
  {
    var sum, weight := FactorSum(f), FactorWeight(f);
    assert 0.0 <= sum <= weight;
    assert Unit(sum / weight) by {
      if f.tokenUsageRatio.Some? {
        assert sum / weight == sum;
      } else {
        assert sum / 0.95 * 0.95 == sum;
      }
    }
    RoundHundredthsInUnit(sum / weight);
  }

  /**
   * More context, a higher LLM confidence and a better schema validation never lower the figure;
   * a higher complexity or token usage never raises it.
   */
  lemma {:induction false} ConfidenceMonotone(f: ConfidenceFactors, g: ConfidenceFactors)
    requires f.contextAvailable <= g.contextAvailable && f.llmConfidence <= g.llmConfidence
    requires f.schemaValidation <= g.schemaValidation && g.changeComplexity <= f.changeComplexity
    requires f.tokenUsageRatio.Some? <==> g.tokenUsageRatio.Some?
    requires f.tokenUsageRatio.Some? ==> g.tokenUsageRatio.value <= f.tokenUsageRatio.value
    ensures ConfidenceFigure(f) <= ConfidenceFigure(g)
  {
    var w := FactorWeight(f);
    assert FactorWeight(g) == w;
    assert FactorSum(f) <= FactorSum(g);
    assert FactorSum(f) / w <= FactorSum(g) / w by {
      if f.tokenUsageRatio.Some? {
        assert w == 1.0;
      } else {
        DivideMonotone(FactorSum(f), FactorSum(g), 0.95);
      }
    }
    RoundMonotone(FactorSum(f) / w * 100.0, FactorSum(g) / w * 100.0);
  }

  lemma {:induction false} DivideMonotone(a: real, b: real, d: real)
    requires a <= b && d > 0.0
    ensures a / d <= b / d
  {
    assert b / d - a / d == (b - a) / d;
  }

  /** Perfect factors give full confidence, with or without the token factor. */
  lemma {:induction false} PerfectFactors(t: Option<real>)
    requires t.None? || t == Some(0.0)
    ensures ConfidenceFigure(ConfidenceFactors(1.0, 0.0, 1.0, 1.0, t)) == 1.0
  {
    RoundInteger(100);
  }

  // ---------------------------------------------------------------------------
  // Average self-reported confidence

  /** What `item.confidence` reads for one element of a section; a `null` element throws. */
  function ItemConfidence(item: Json): Result<Option<Json>, Thrown> {
    match item
    case Null => Err(TypeError)
    case Obj(members) => Ok(Lookup(members, "confidence"))
    case _ => Ok(None)
  }

  /** The confidences present among the first `n` items, in order; the first throw wins. */
  function ItemsConfidences(items: seq<Json>, n: nat): Result<seq<Json>, Thrown>
    requires n <= |items|
  {
    if n == 0 then Ok([])
    else
      var prefix := ItemsConfidences(items, n - 1);
      if prefix.Err? then prefix
      else
        var c := ItemConfidence(items[n - 1]);
        if c.Err? then Err(c.error)
        else Ok(prefix.value + (if c.value.Some? then [c.value.value] else []))
  }

  /**
   * `if (section) for (const c of section) ...`: an absent or falsy section adds nothing; an array
   * is walked item by item; a string's characters have no confidence; other values are not iterable.
   */
  function SectionConfidences(section: Option<Json>): Result<seq<Json>, Thrown> {
    if !Truthy(section) then Ok([])
    else match section.value
      case Arr(items) => ItemsConfidences(items, |items|)
      case Str(_) => Ok([])
      case _ => Err(TypeError)
  }

  /** `value?.confidence`, when it is not undefined. */
  function MemberConfidence(value: Option<Json>): seq<Json> {
    if value.Some? && value.value.Obj? then
      var c := Lookup(value.value.members, "confidence");
      if c.Some? then [c.value] else []
    else []
  }

  /** Every confidence present in the five sections, in section order. */
  function Collected(data: Json): Result<seq<Json>, Thrown> {
    var cs := SectionConfidences(Get(data, "affectedComponents"));
    var rs := SectionConfidences(Get(data, "risks"));
    var ss := SectionConfidences(Get(data, "suggestions"));
    if cs.Err? then cs
    else if rs.Err? then rs
    else if ss.Err? then ss
    else Ok(cs.value + rs.value + ss.value
            + MemberConfidence(Get(data, "styleConsistency")) + MemberConfidence(Get(data, "prScore")))
  }

  /** `values.reduce((a, b) => a + b, 0)` over the first `n` values; `None` is NaN. */
  function SumOf(values: seq<Json>, n: nat): Option<real>
    requires n <= |values|
  {
    if n == 0 then Some(0.0)
    else
      var prefix := SumOf(values, n - 1);
      var x := ToNumber(Some(values[n - 1]));
      if prefix.Some? && x.Some? then Some(prefix.value + x.value) else None
  }

  const DefaultConfidence := 0.7

  /** The mean of the collected values, or 0.7 when there are none. */
  function Average(values: seq<Json>): Option<real> {
    if |values| == 0 then Some(DefaultConfidence)
    else
      var sum := SumOf(values, |values|);
      if sum.Some? then Some(sum.value / |values| as real) else None
  }

  function AverageConfidence(data: Json): Result<Option<real>, Thrown> {
    var values := Collected(data);
    if values.Err? then Err(values.error) else Ok(Average(values.value))
  }

  method CollectSection(section: Option<Json>) returns (r: Result<seq<Json>, Thrown>)
    ensures r == SectionConfidences(section)
  {
    if !Truthy(section) {
      return Ok([]);
    }
    match section.value {
      case Arr(items) =>
        var confidences: seq<Json> := [];
        var i := 0;
        while i < |items|
          invariant 0 <= i <= |items|
          invariant ItemsConfidences(items, i) == Ok(confidences)
        {
          var c := ItemConfidence(items[i]);
          assert c.Ok? ==> ItemsConfidences(items, i + 1) == Ok(confidences + (if c.value.Some? then [c.value.value] else []));
          if c.Err? {
            assert ItemsConfidences(items, |items|) == Err(c.error) by {
              ItemsErrorSticks(items, i + 1, |items|);
            }
            return Err(c.error);
          }
          var prev := confidences;
          if c.value.Some? {
            confidences := confidences + [c.value.value];
          }
          assert confidences == prev + (if c.value.Some? then [c.value.value] else []);
          i := i + 1;
        }
        r := Ok(confidences);
      case Str(_) =>
        r := Ok([]);
      case _ =>
        r := Err(TypeError);
    }
  }

  /** Once an item throws, every longer prefix throws the same error. */
  lemma {:induction false} ItemsErrorSticks(items: seq<Json>, n: nat, m: nat)
    requires n <= m <= |items| && ItemsConfidences(items, n).Err?
    ensures ItemsConfidences(items, m) == ItemsConfidences(items, n)
    decreases m - n
  {
    if n < m {
      ItemsErrorSticks(items, n, m - 1);
    }
  }

  method ExtractAverageConfidence(data: Json) returns (r: Result<Option<real>, Thrown>)
    ensures r == AverageConfidence(data)
  {
    var confidences: seq<Json> := [];
    var components := CollectSection(Get(data, "affectedComponents"));
    if components.Err? {
      return Err(components.error);
    }
    confidences := confidences + components.value;
    assert confidences == components.value;
    var risks := CollectSection(Get(data, "risks"));
    if risks.Err? {
      return Err(risks.error);
    }
    confidences := confidences + risks.value;
    var suggestions := CollectSection(Get(data, "suggestions"));
    if suggestions.Err? {
      return Err(suggestions.error);
    }
    confidences := confidences + suggestions.value;
    confidences := confidences + MemberConfidence(Get(data, "styleConsistency"));
    confidences := confidences + MemberConfidence(Get(data, "prScore"));
    assert Collected(data) == Ok(confidences);
    if |confidences| == 0 {
      return Ok(Some(DefaultConfidence));
    }
    var sum := SumOf(confidences, |confidences|);
    r := Ok(if sum.Some? then Some(sum.value / |confidences| as real) else None);
  }

  // ---------------------------------------------------------------------------
  // The average over a validated result

  function RealSum(xs: seq<real>): real {
    if |xs| == 0 then 0.0 else RealSum(xs[..|xs| - 1]) + xs[|xs| - 1]
  }

  function Mean(xs: seq<real>): real
    requires |xs| > 0
  {
    RealSum(xs) / |xs| as real
  }

  /** The confidences of a validated result, in the order the sections are read. */
  function TypedConfidences(d: AnalysisResultData): (r: seq<real>)
    ensures |r| == |d.affectedComponents| + |d.risks| + |d.suggestions| + 2
  {
    ConfidencesOf(d.affectedComponents, (c: ComponentImpact) => c.confidence)
    + ConfidencesOf(d.risks, (r: Risk) => r.confidence)
    + ConfidencesOf(d.suggestions, (s: Suggestion) => s.confidence)
    + [d.styleConsistency.confidence, d.prScore.confidence]
  }

  /** Encoded records whose last member is their confidence yield exactly those confidences. */
  lemma {:induction false} ItemsOfRecords(items: seq<Json>, confs: seq<real>, n: nat)
    requires |items| == |confs| && n <= |items|
    requires forall i :: 0 <= i < |items| ==> ConfidenceLast(items[i], confs[i])
    ensures ItemsConfidences(items, n) == Ok(NumsOf(confs[..n]))
  {
    if n > 0 {
      ItemsOfRecords(items, confs, n - 1);
      var ms := items[n - 1].members;
      LookupAt(ms, |ms| - 1);
      assert confs[..n] == confs[..n - 1] + [confs[n - 1]];
    }
  }

  function NumsOf(xs: seq<real>): (r: seq<Json>)
    ensures |r| == |xs| && forall i :: 0 <= i < |xs| ==> r[i] == Num(xs[i])
  {
    if |xs| == 0 then [] else NumsOf(xs[..|xs| - 1]) + [Num(xs[|xs| - 1])]
  }

  lemma {:induction false} SumOfNums(xs: seq<real>, n: nat)
    requires n <= |xs|
    ensures SumOf(NumsOf(xs), n) == Some(RealSum(xs[..n]))
  {
    if n > 0 {
      SumOfNums(xs, n - 1);
      assert xs[..n][..n - 1] == xs[..n - 1];
    }
  }

  lemma {:induction false} NumsOfAppend(a: seq<real>, b: seq<real>)
    ensures NumsOf(a + b) == NumsOf(a) + NumsOf(b)
  {
    var l, r := NumsOf(a + b), NumsOf(a) + NumsOf(b);
    assert |l| == |r|;
    forall i | 0 <= i < |l| ensures l[i] == r[i] {
      if i < |a| { assert (a + b)[i] == a[i]; } else { assert (a + b)[i] == b[i - |a|]; }
    }
  }

  /** An encoded record whose last member is its confidence. */
  predicate ConfidenceLast(item: Json, confidence: real) {
    item.Obj? && |item.members| > 0 && item.members[|item.members| - 1] == ("confidence", Num(confidence))
  }

  lemma {:induction false} SectionOfRecords(items: seq<Json>, confs: seq<real>)
    requires |items| == |confs|
    requires forall i :: 0 <= i < |items| ==> ConfidenceLast(items[i], confs[i])
    ensures SectionConfidences(Some(Arr(items))) == Ok(NumsOf(confs))
  {
    ItemsOfRecords(items, confs, |items|);
    assert confs[..|confs|] == confs;
    assert SectionConfidences(Some(Arr(items))) == ItemsConfidences(items, |items|);
  }

  /** The `confidence` of each item of a validated section, in order. */
  function ConfidencesOf<T>(items: seq<T>, confidence: T -> real): (r: seq<real>)
    ensures |r| == |items| && forall i :: 0 <= i < |items| ==> r[i] == confidence(items[i])
  {
    seq(|items|, i requires 0 <= i < |items| => confidence(items[i]))
  }

  lemma {:induction false} ComponentsSection(cs: seq<ComponentImpact>)
    ensures SectionConfidences(Some(Arr(ComponentsJson(cs)))) == Ok(NumsOf(ConfidencesOf(cs, (c: ComponentImpact) => c.confidence)))
  {
    forall i | 0 <= i < |cs| ensures ConfidenceLast(ComponentsJson(cs)[i], ConfidencesOf(cs, (c: ComponentImpact) => c.confidence)[i]) {
      var c := cs[i];
      var ms := ComponentImpactJson(c).members;
      assert ms[|ms| - 1] == ("confidence", Num(c.confidence));
    }
    SectionOfRecords(ComponentsJson(cs), ConfidencesOf(cs, (c: ComponentImpact) => c.confidence));
  }

  lemma {:induction false} RisksSection(rs: seq<Risk>)
    ensures SectionConfidences(Some(Arr(RisksJson(rs)))) == Ok(NumsOf(ConfidencesOf(rs, (r: Risk) => r.confidence)))
  {
    forall i | 0 <= i < |rs| ensures ConfidenceLast(RisksJson(rs)[i], ConfidencesOf(rs, (r: Risk) => r.confidence)[i]) {
      var r := rs[i];
      var ms := RiskJson(r).members;
      assert ms[|ms| - 1] == ("confidence", Num(r.confidence));
    }
    SectionOfRecords(RisksJson(rs), ConfidencesOf(rs, (r: Risk) => r.confidence));
  }

  lemma {:induction false} SuggestionsSection(ss: seq<Suggestion>)
    ensures SectionConfidences(Some(Arr(SuggestionsJson(ss)))) == Ok(NumsOf(ConfidencesOf(ss, (s: Suggestion) => s.confidence)))
  {
    forall i | 0 <= i < |ss| ensures ConfidenceLast(SuggestionsJson(ss)[i], ConfidencesOf(ss, (s: Suggestion) => s.confidence)[i]) {
      var s := ss[i];
      var ms := SuggestionJson(s).members;
      assert ms[|ms| - 1] == ("confidence", Num(s.confidence));
    }
    SectionOfRecords(SuggestionsJson(ss), ConfidencesOf(ss, (s: Suggestion) => s.confidence));
  }

  lemma {:induction false} ScoreMembers(d: AnalysisResultData)
    ensures MemberConfidence(Get(AnalysisResultJson(d), "styleConsistency")) == [Num(d.styleConsistency.confidence)]
    ensures MemberConfidence(Get(AnalysisResultJson(d), "prScore")) == [Num(d.prScore.confidence)]
  {
    AnalysisResultSections(d);
    var sr := StyleReviewJson(d.styleConsistency).members;
    LookupAt(sr, |sr| - 1);
    var pr := PRScoreJson(d.prScore).members;
    LookupAt(pr, |pr| - 1);
  }

  /** Collection from the sections' own results. */
  lemma {:induction false} CollectedOfSections(data: Json, cs: seq<real>, rs: seq<real>, ss: seq<real>, style: real, score: real)
    requires SectionConfidences(Get(data, "affectedComponents")) == Ok(NumsOf(cs))
    requires SectionConfidences(Get(data, "risks")) == Ok(NumsOf(rs))
    requires SectionConfidences(Get(data, "suggestions")) == Ok(NumsOf(ss))
    requires MemberConfidence(Get(data, "styleConsistency")) == [Num(style)]
    requires MemberConfidence(Get(data, "prScore")) == [Num(score)]
    ensures Collected(data) == Ok(NumsOf(cs + rs + ss + [style, score]))
  {
    NumsOfSections(cs, rs, ss, style, score);
  }

  lemma {:induction false} NumsOfSections(cs: seq<real>, rs: seq<real>, ss: seq<real>, style: real, score: real)
    ensures NumsOf(cs + rs + ss + [style, score])
      == NumsOf(cs) + NumsOf(rs) + NumsOf(ss) + [Num(style)] + [Num(score)]
  {
    NumsOfAppend(cs, rs);
    NumsOfAppend(cs + rs, ss);
    NumsOfAppend(cs + rs + ss, [style, score]);
    assert NumsOf([style, score]) == [Num(style)] + [Num(score)];
  }

  /** On a validated result every confidence is collected, in section order. */
  lemma {:induction false} CollectedOfValidated(d: AnalysisResultData)
    ensures Collected(AnalysisResultJson(d)) == Ok(NumsOf(TypedConfidences(d)))
  {
    AnalysisResultSections(d);
    ComponentsSection(d.affectedComponents);
    RisksSection(d.risks);
    SuggestionsSection(d.suggestions);
    ScoreMembers(d);
    CollectedOfSections(AnalysisResultJson(d), ConfidencesOf(d.affectedComponents, (c: ComponentImpact) => c.confidence),
      ConfidencesOf(d.risks, (r: Risk) => r.confidence), ConfidencesOf(d.suggestions, (s: Suggestion) => s.confidence),
      d.styleConsistency.confidence, d.prScore.confidence);
  }

  /**
   * On a validated result the extraction is the arithmetic mean of every confidence in it: one
   * per component, risk and suggestion, plus the style review's and the PR score's.
   */
  lemma {:induction false} AverageOfValidated(d: AnalysisResultData)
    ensures AverageConfidence(AnalysisResultJson(d)) == Ok(Some(Mean(TypedConfidences(d))))
  {
    CollectedOfValidated(d);
    var all := TypedConfidences(d);
    SumOfNums(all, |all|);
    assert all[..|all|] == all;
  }

  lemma {:induction false} RealSumBounds(xs: seq<real>)
    requires forall i :: 0 <= i < |xs| ==> Unit(xs[i])
    ensures 0.0 <= RealSum(xs) <= |xs| as real
  {
    if |xs| > 0 {
      RealSumBounds(xs[..|xs| - 1]);
    }
  }

  /** The average confidence of a valid result lies in [0, 1]. */
  lemma {:induction false} AverageOfValidInUnit(d: AnalysisResultData)
    requires ValidAnalysisResult(d)
    ensures Unit(Mean(TypedConfidences(d)))
  {
    var xs := TypedConfidences(d);
    forall i | 0 <= i < |xs| ensures Unit(xs[i]) {
      var a, b, c := |d.affectedComponents|, |d.risks|, |d.suggestions|;
      if i < a {
        assert xs[i] == d.affectedComponents[i].confidence;
      } else if i < a + b {
        assert xs[i] == d.risks[i - a].confidence;
      } else if i < a + b + c {
        assert xs[i] == d.suggestions[i - a - b].confidence;
      }
    }
    RealSumBounds(xs);
    var n := |xs| as real;
    assert RealSum(xs) / n <= 1.0 by {
      assert RealSum(xs) / n * n == RealSum(xs);
    }
  }

  // ---------------------------------------------------------------------------
  // Label and warning

  const ConfidenceLabels: seq<string> := ["Very Low", "Low", "Moderate", "High", "Very High"]

  function ConfidenceRank(confidence: real): (k: nat)
    ensures k < 5
  {
    if confidence >= 0.9 then 4
    else if confidence >= 0.75 then 3
    else if confidence >= 0.6 then 2
    else if confidence >= 0.4 then 1
    else 0
  }

  function GetConfidenceLabel(confidence: real): (r: string)
    ensures r == ConfidenceLabels[ConfidenceRank(confidence)]
  {
    if confidence >= 0.9 then "Very High"
    else if confidence >= 0.75 then "High"
    else if confidence >= 0.6 then "Moderate"
    else if confidence >= 0.4 then "Low"
    else "Very Low"
  }

  /** The label never gets worse as the confidence rises; the cut-offs are 0.4, 0.6, 0.75 and 0.9. */
  lemma {:induction false} ConfidenceLabelMonotone(a: real, b: real)
    requires a <= b
    ensures ConfidenceRank(a) <= ConfidenceRank(b)
    ensures ConfidenceRank(a) == 0 <==> a < 0.4
    ensures ConfidenceRank(a) == 4 <==> a >= 0.9
  {
  }

  function ShouldWarnLowConfidence(confidence: real): (r: bool)
    ensures r <==> confidence < 0.6
  {
    confidence < 0.6
  }

  /** A warning is due exactly when the label is below "Moderate". */
  lemma {:induction false} WarnBelowModerate(confidence: real)
    ensures ShouldWarnLowConfidence(confidence) <==> ConfidenceRank(confidence) < 2
  {
  }
}
