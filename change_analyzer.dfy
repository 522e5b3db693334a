/**
 * The change analyzer. One change is sent to the model; its reply is parsed and validated and
 * lands in one of three tiers (1: a valid result; 0.5: JSON that fails validation, patched with
 * fallbacks; 0: no usable JSON, replaced by a default result). The PR score is then checked
 * against the scoring engine and a confidence figure is attached. A batch is analysed as a
 * stream of events, one change at a time or in windows of parallel calls.
 *
 * The provider call, `JSON.parse`, `uuidv4()` and `Date.now()` are inputs here: a completion
 * (or the error it threw) per call, a parse function (`None` when parsing throws) and a stamp
 * per analysis. Rendering the prompts only feeds the provider call and is not modelled.
 */
module ChangeAnalyzer {
  import opened Wrappers
  import opened JsMath
  import opened Json
  import opened Records
  import opened Schemas
  import opened Weights
  import opened ScoringEngine
  import opened Context
  import opened Confidence

  /** What the provider's `complete` call hands back. */
  datatype Completion = Completion(content: string, totalTokens: real)

  /** The values `uuidv4()` and `Date.now()` supply to one analysis. */
  datatype Stamp = Stamp(id: string, timestamp: real)

  /** The five sections the analyzer works on: validated output, raw model output or defaults. */
  datatype Sections = Sections(
    affectedComponents: Json,
    risks: Json,
    suggestions: Json,
    styleConsistency: Json,
    prScore: Json)

  function SectionsJson(s: Sections): Json {
    Obj([("affectedComponents", s.affectedComponents),
         ("risks", s.risks),
         ("suggestions", s.suggestions),
         ("styleConsistency", s.styleConsistency),
         ("prScore", s.prScore)])
  }

  /** The sections of a validated result, as the validator hands them back. */
  function SectionsOf(d: AnalysisResultData): (r: Sections)
    ensures SectionsJson(r) == AnalysisResultJson(d)
  {
    Sections(Arr(ComponentsJson(d.affectedComponents)), Arr(RisksJson(d.risks)),
             Arr(SuggestionsJson(d.suggestions)), StyleReviewJson(d.styleConsistency), PRScoreJson(d.prScore))
  }

  /** The analysis of one change; `confidence` is `None` where the figure is NaN. */
  datatype AnalysisResult = AnalysisResult(
    id: string,
    changeId: string,
    timestamp: real,
    affectedComponents: Json,
    risks: Json,
    suggestions: Json,
    styleConsistency: Json,
    prScore: Json,
    confidence: Option<real>,
    provider: string,
    tokensUsed: real,
    rawResponse: string)

  // ---------------------------------------------------------------------------
  // Configuration

  /** `config.maxTokens || 2000`. */
  function MaxTokensOf(configured: Option<real>): (r: real)
    ensures r != 0.0
    ensures configured.Some? && configured.value != 0.0 ==> r == configured.value
    ensures configured.None? || configured.value == 0.0 ==> r == 2000.0
  {
    if configured.Some? && configured.value != 0.0 then configured.value else 2000.0
  }

  /** `config.temperature ?? 0.3`. */
  function TemperatureOf(configured: Option<real>): (r: real)
    ensures configured.Some? ==> r == configured.value
    ensures configured.None? ==> r == 0.3
  {
    configured.GetOr(0.3)
  }

  // ---------------------------------------------------------------------------
  // Defaults and fallbacks

  const DefaultStyleReview := StyleReview(70.0, 70.0, 70.0, 70.0, 70.0, [], 0.5)
  const DefaultBreakdown := Breakdown(70.0, 70.0, 30.0, 30.0, 70.0, 70.0, 70.0)
  const DefaultSummary := "Analysis incomplete. Manual review recommended."
  const DefaultPRScore := PRScore(70.0, DefaultBreakdown, [], DefaultSummary, true, 0.5)

  const ParseErrorRisk := Risk("parse-error", "medium", "compatibility", "Analysis Parse Error",
    "Could not fully parse the analysis result. Review manually.", None, None, 0.5)

  /** `createDefaultResult()`: one parse-error risk, empty components and suggestions. */
  const DefaultResult := AnalysisResultData([], [ParseErrorRisk], [], DefaultStyleReview, DefaultPRScore)

  const DefaultSections := SectionsOf(DefaultResult)

  /** An array section survives the fallback only if it is an array. */
  function ArrayOr(v: Option<Json>): (r: Json)
    ensures r.Arr?
    ensures v.Some? && v.value.Arr? ==> r == v.value
    ensures !(v.Some? && v.value.Arr?) ==> r == Arr([])
  {
    if v.Some? && v.value.Arr? then v.value else Arr([])
  }

  /** `value || fallback`. */
  function TruthyOr(v: Option<Json>, fallback: Json): (r: Json)
    ensures Truthy(v) ==> r == v.value
    ensures !Truthy(v) ==> r == fallback
  {
    if Truthy(v) then v.value else fallback
  }

  /** `createFallbackResult(parsed)`: reading a member of `null` throws. */
  function FallbackSections(parsed: Json): (r: Result<Sections, Thrown>)
    ensures r.Err? <==> parsed.Null?
    ensures r.Ok? ==> r.value.affectedComponents.Arr? && r.value.risks.Arr? && r.value.suggestions.Arr?
  {
    if parsed.Null? then Err(TypeError)
    else Ok(Sections(
      ArrayOr(Get(parsed, "affectedComponents")),
      ArrayOr(Get(parsed, "risks")),
      ArrayOr(Get(parsed, "suggestions")),
      TruthyOr(Get(parsed, "styleConsistency"), StyleReviewJson(DefaultStyleReview)),
      TruthyOr(Get(parsed, "prScore"), PRScoreJson(DefaultPRScore))))
  }

  // ---------------------------------------------------------------------------
  // The three tiers

  /** The schema-validation factor and the data a reply leads to. */
  datatype Tiered = Tiered(schemaValidation: real, data: Sections)

  /**
   * Tier 1 when the parsed reply passes the validator, tier 0.5 when it parses but fails (unless
   * it is `null`, on which the fallback throws), tier 0 when parsing throws.
   */
  function TierOf(parsed: Option<Json>): (r: Tiered)
    ensures r.schemaValidation == 1.0 <==> parsed.Some? && DecodeAnalysisResult(parsed.value).Ok?
    ensures r.schemaValidation == 0.5 <==>
      parsed.Some? && DecodeAnalysisResult(parsed.value).Err? && !parsed.value.Null?
    ensures r.schemaValidation == 0.0 <==> parsed.None? || parsed.value.Null?
    ensures r.schemaValidation == 1.0 ==> r.data == SectionsOf(DecodeAnalysisResult(parsed.value).value)
    ensures r.schemaValidation == 0.5 ==> r.data == FallbackSections(parsed.value).value
    ensures r.schemaValidation == 0.0 ==> r.data == DefaultSections
  {
    if parsed.None? then Tiered(0.0, DefaultSections)
    else
      var result := SafeParseAnalysisResult(parsed.value);
      if result.success && result.data.Some? then Tiered(1.0, SectionsOf(result.data.value))
      else
        var fallback := FallbackSections(parsed.value);
        if fallback.Err? then Tiered(0.0, DefaultSections) else Tiered(0.5, fallback.value)
  }

  // ---------------------------------------------------------------------------
  // `validateAndRecalculate` applied to whatever the PR-score section holds

  /** The seven breakdown values as numbers, or `None` when one of them is NaN. */
  function NumericBreakdown(breakdown: Json): (r: Option<Breakdown>)
    ensures r.Some? ==> forall m :: ToNumber(Get(breakdown, MetricKey(m))) == Some(r.value.Get(m))
    ensures r.None? ==> exists m :: ToNumber(Get(breakdown, MetricKey(m))).None?
  {
    var cc := ToNumber(Get(breakdown, "codeConsistency"));
    var rs := ToNumber(Get(breakdown, "reuseScore"));
    var ai := ToNumber(Get(breakdown, "aiDetectionRisk"));
    var ca := ToNumber(Get(breakdown, "cascadeRisk"));
    var re := ToNumber(Get(breakdown, "responsiveScore"));
    var se := ToNumber(Get(breakdown, "semanticScore"));
    var ia := ToNumber(Get(breakdown, "intentAlignment"));
    if cc.None? then assert ToNumber(Get(breakdown, MetricKey(CodeConsistency))).None?; None
    else if rs.None? then assert ToNumber(Get(breakdown, MetricKey(ReuseScore))).None?; None
    else if ai.None? then assert ToNumber(Get(breakdown, MetricKey(AiDetectionRisk))).None?; None
    else if ca.None? then assert ToNumber(Get(breakdown, MetricKey(CascadeRisk))).None?; None
    else if re.None? then assert ToNumber(Get(breakdown, MetricKey(ResponsiveScore))).None?; None
    else if se.None? then assert ToNumber(Get(breakdown, MetricKey(SemanticScore))).None?; None
    else if ia.None? then assert ToNumber(Get(breakdown, MetricKey(IntentAlignment))).None?; None
    else Some(Breakdown(cc.value, rs.value, ai.value, ca.value, re.value, se.value, ia.value))
  }

  /** `calculateOverallScore(breakdown)`, `None` being NaN: a metric that is not a number, or a total weight of 0. */
  function RecalculatedOverall(w: ScoringWeights, breakdown: Json): Option<real>
  {
    var b := NumericBreakdown(breakdown);
    if b.Some? && w.Sum() != 0.0 then Some(OverallScore(w, b.value) as real) else None
  }

  /**
   * `validateAndRecalculate(prScore)` on a parsed value: reading the breakdown of a score that
   * has none throws; a NaN on either side keeps the reported overall.
   */
  function RawValidate(w: ScoringWeights, prScore: Json): (r: Result<Json, Thrown>)
    ensures r.Err? <==> Get(prScore, "breakdown").None? || Get(prScore, "breakdown") == Some(Null)
    ensures r.Err? ==> r.error == TypeError
    ensures r.Ok? ==> prScore.Obj? && r.value.Obj?
  {
    var breakdown := Get(prScore, "breakdown");
    if breakdown.None? || breakdown.value.Null? then Err(TypeError)
    else
      var recalculated := RecalculatedOverall(w, breakdown.value);
      var reported := ToNumber(Get(prScore, "overall"));
      var spread := Spread(prScore.members);
      if recalculated.Some? && reported.Some? && Abs(reported.value - recalculated.value) > Tolerance then
        Ok(Obj(Assign(spread, "overall", Num(recalculated.value))))
      else Ok(Obj(spread))
  }

  /** Whether the recomputed score replaces the reported one. */
  predicate Replaces(w: ScoringWeights, prScore: Json)
  {
    var breakdown := Get(prScore, "breakdown");
    breakdown.Some? && !breakdown.value.Null?
    && RecalculatedOverall(w, breakdown.value).Some? && ToNumber(Get(prScore, "overall")).Some?
    && Abs(ToNumber(Get(prScore, "overall")).value - RecalculatedOverall(w, breakdown.value).value) > Tolerance
  }

  /**
   * Validation touches only `overall`: it becomes the recomputed score when the reported one is
   * more than the tolerance away, and every other member reads as before.
   */
  lemma {:induction false} RawValidateLookups(w: ScoringWeights, prScore: Json, key: string)
    requires RawValidate(w, prScore).Ok?
    ensures key != "overall" ==> Get(RawValidate(w, prScore).value, key) == Get(prScore, key)
    ensures Replaces(w, prScore) ==>
      (Get(RawValidate(w, prScore).value, "overall") ==
         Some(Num(RecalculatedOverall(w, Get(prScore, "breakdown").value).value)))
    ensures !Replaces(w, prScore) ==> Get(RawValidate(w, prScore).value, "overall") == Get(prScore, "overall")
  {
    var spread := Spread(prScore.members);
    SpreadLookup(prScore.members, key);
    SpreadLookup(prScore.members, "overall");
    if Replaces(w, prScore) {
      var x := RecalculatedOverall(w, Get(prScore, "breakdown").value).value;
      AssignLookup(spread, "overall", Num(x), key);
    }
  }

  /** After validation the overall score is a number within the tolerance of the recomputed one. */
  lemma {:induction false} RawValidatedWithinTolerance(w: ScoringWeights, prScore: Json)
    requires RawValidate(w, prScore).Ok?
    requires RecalculatedOverall(w, Get(prScore, "breakdown").value).Some?
    requires ToNumber(Get(prScore, "overall")).Some?
    ensures var overall := ToNumber(Get(RawValidate(w, prScore).value, "overall"));
      overall.Some? &&
      Abs(overall.value - RecalculatedOverall(w, Get(prScore, "breakdown").value).value) <= Tolerance
  {
    RawValidateLookups(w, prScore, "overall");
  }

  /** What reading an encoded score finds. */
  lemma {:induction false} PRScoreJsonReads(p: PRScore)
    ensures Get(PRScoreJson(p), "overall") == Some(Num(p.overall))
    ensures Get(PRScoreJson(p), "breakdown") == Some(BreakdownJson(p.breakdown))
    ensures forall i, j :: 0 <= i < j < |PRScoreJson(p).members| ==>
      PRScoreJson(p).members[i].0 != PRScoreJson(p).members[j].0
  {
    var ms := PRScoreJson(p).members;
    LookupAt(ms, 0);
    LookupAt(ms, 1);
  }

  /** An encoded breakdown reads back as the same seven numbers. */
  lemma {:induction false} NumericBreakdownOfJson(b: Breakdown)
    ensures NumericBreakdown(BreakdownJson(b)) == Some(b)
  {
    BreakdownJsonRead(b, CodeConsistency);
    BreakdownJsonRead(b, ReuseScore);
    BreakdownJsonRead(b, AiDetectionRisk);
    BreakdownJsonRead(b, CascadeRisk);
    BreakdownJsonRead(b, ResponsiveScore);
    BreakdownJsonRead(b, SemanticScore);
    BreakdownJsonRead(b, IntentAlignment);
  }

  /** On an encoded typed score, validation does what the engine's typed validation does. */
  lemma {:induction false} RawValidateTyped(e: ScoringEngine, p: PRScore)
    ensures RawValidate(e.weights, PRScoreJson(p)) == Ok(PRScoreJson(e.ValidateAndRecalculate(p)))
  {
    var ms := PRScoreJson(p).members;
    PRScoreJsonReads(p);
    NumericBreakdownOfJson(p.breakdown);
    SpreadDistinct(ms);
    var q := e.ValidateAndRecalculate(p);
    if e.weights.Sum() == 0.0 {
      assert RecalculatedOverall(e.weights, BreakdownJson(p.breakdown)).None?;
      assert q == p;
    } else {
      assert RecalculatedOverall(e.weights, BreakdownJson(p.breakdown)) == Some(OverallScore(e.weights, p.breakdown) as real);
      if q.overall != p.overall {
        AssignExisting(ms, 0, Num(q.overall));
        assert ms[0 := ("overall", Num(q.overall))] == PRScoreJson(q).members;
      } else {
        assert q == p;
      }
    }
  }

  /** `{ ...analysisData, prScore: v }` on the five sections replaces the PR score in place. */
  lemma {:induction false} SectionsUpdate(s: Sections, v: Json)
    ensures Obj(Assign(Spread(SectionsJson(s).members), "prScore", v)) == SectionsJson(s.(prScore := v))
  {
    var ms := SectionsJson(s).members;
    SpreadDistinct(ms);
    AssignExisting(ms, 4, v);
  }

  // ---------------------------------------------------------------------------
  // The default result

  /**
   * The default result satisfies the schema; its PR score is consistent with the engine under any
   * weights (recomputing it gives 70 again) and with the approval gate; its confidences average 0.5.
   */
  lemma {:induction false} DefaultResultConsistent(w: ScoringWeights)
    requires w.Sum() != 0.0
    ensures ValidAnalysisResult(DefaultResult)
    ensures OverallScore(w, DefaultBreakdown) == 70
    ensures ShouldApprove(DefaultPRScore.overall, DefaultBreakdown) == DefaultPRScore.wouldApprove
    ensures Mean(TypedConfidences(DefaultResult)) == 0.5
  {
    assert ValidBreakdown(DefaultBreakdown) by {
      forall m: Metric ensures Percent(DefaultBreakdown.Get(m)) {
      }
    }
    forall m: Metric ensures Effective(m, DefaultBreakdown.Get(m)) == 70.0 {
      OnlyRisksInverted(m);
    }
    UniformWeightedSum(w, DefaultBreakdown, 70.0, |Metrics|);
    TotalWeightIsSum(w);
    var t := TotalWeight(w, |Metrics|);
    assert WeightedSum(w, DefaultBreakdown, |Metrics|) / t == 70.0 by {
      assert 70.0 * t / t == 70.0;
    }
    RoundInteger(70);
    var xs := TypedConfidences(DefaultResult);
    assert xs == [0.5, 0.5, 0.5];
    assert xs[..2] == [0.5, 0.5] && xs[..2][..1] == [0.5] && xs[..2][..1][..0] == [];
    assert RealSum(xs[..2][..1]) == 0.5;
    assert RealSum(xs[..2]) == 1.0;
  }

  /** Validation leaves the default PR score as it is. */
  lemma {:induction false} DefaultScoreKept(e: ScoringEngine)
    ensures RawValidate(e.weights, PRScoreJson(DefaultPRScore)) == Ok(PRScoreJson(DefaultPRScore))
  {
    if e.weights.Sum() != 0.0 {
      DefaultResultConsistent(e.weights);
    }
    RawValidateTyped(e, DefaultPRScore);
  }

  // ---------------------------------------------------------------------------
  // One analysis

  /** The factors of the confidence figure; the token ratio is always supplied. */
  function AnalysisFactors(change: ChangeInput, context: AnalysisContext, llmConfidence: real,
                           schemaValidation: real, tokenUsageRatio: real): ConfidenceFactors
  {
    ConfidenceFactors(ContextQuality(context), ChangeComplexity(change), llmConfidence, schemaValidation,
                      Some(tokenUsageRatio))
  }

  /**
   * `analyze(change, context)`: a provider error, a PR score without a breakdown and a `null`
   * section element propagate as the promise's rejection.
   */
  function Analysis(w: ScoringWeights, maxTokens: real, provider: string, change: ChangeInput,
                    context: AnalysisContext, response: Result<Completion, Thrown>,
                    parse: string -> Option<Json>, stamp: Stamp): (r: Result<AnalysisResult, Thrown>)
    requires maxTokens != 0.0
    ensures response.Err? ==> r == Err(response.error)
    ensures r.Ok? ==>
      (response.Ok? && r.value.changeId == change.id && r.value.id == stamp.id
       && r.value.timestamp == stamp.timestamp && r.value.provider == provider
       && r.value.tokensUsed == response.value.totalTokens && r.value.rawResponse == response.value.content)
  {
    if response.Err? then Err(response.error)
    else
      var tiered := TierOf(parse(response.value.content));
      var validated := RawValidate(w, tiered.data.prScore);
      if validated.Err? then Err(validated.error)
      else
        var data := tiered.data.(prScore := validated.value);
        var llm := AverageConfidence(SectionsJson(data));
        if llm.Err? then Err(llm.error)
        else
          var confidence :=
            if llm.value.Some? then
              Some(ConfidenceFigure(AnalysisFactors(change, context, llm.value.value, tiered.schemaValidation,
                                              response.value.totalTokens / maxTokens)))
            else None;
          Ok(AnalysisResult(stamp.id, change.id, stamp.timestamp, data.affectedComponents, data.risks,
                            data.suggestions, data.styleConsistency, data.prScore, confidence, provider,
                            response.value.totalTokens, response.value.content))
  }

  lemma {:induction false} RatioInUnit(t: real, m: real)
    requires 0.0 <= t <= m && m > 0.0
    ensures Unit(t / m)
  {
    assert t / m * m == t;
  }

  /**
   * A reply that passes the validator is analysed in tier 1: the result holds the validated
   * sections with the engine's verdict on the PR score, and its confidence is the figure of the
   * mean self-reported confidence; with token usage within the budget it lies in [0, 1].
   */
  lemma {:induction false} ValidReplyAnalysis(e: ScoringEngine, maxTokens: real, provider: string, change: ChangeInput,
                           context: AnalysisContext, reply: Completion, parse: string -> Option<Json>,
                           stamp: Stamp, d: AnalysisResultData)
    requires maxTokens != 0.0
    requires parse(reply.content).Some? && DecodeAnalysisResult(parse(reply.content).value) == Ok(d)
    ensures var r := Analysis(e.weights, maxTokens, provider, change, context, Ok(reply), parse, stamp);
      && r.Ok?
      && r.value.affectedComponents == Arr(ComponentsJson(d.affectedComponents))
      && r.value.risks == Arr(RisksJson(d.risks))
      && r.value.suggestions == Arr(SuggestionsJson(d.suggestions))
      && r.value.styleConsistency == StyleReviewJson(d.styleConsistency)
      && r.value.prScore == PRScoreJson(e.ValidateAndRecalculate(d.prScore))
      && r.value.confidence == Some(ConfidenceFigure(AnalysisFactors(change, context, Mean(TypedConfidences(d)),
                                                                1.0, reply.totalTokens / maxTokens)))
      && (0.0 <= reply.totalTokens <= maxTokens ==> Unit(r.value.confidence.value))
  {
    var q := e.ValidateAndRecalculate(d.prScore);
    var d' := d.(prScore := q);
    RawValidateTyped(e, d.prScore);
    assert SectionsOf(d).(prScore := PRScoreJson(q)) == SectionsOf(d');
    AverageOfValidated(d');
    assert TypedConfidences(d') == TypedConfidences(d);
    if 0.0 <= reply.totalTokens <= maxTokens {
      RatioInUnit(reply.totalTokens, maxTokens);
      QualityRange(context);
      ComplexityRange(change);
      AverageOfValidInUnit(d);
      ConfidenceInUnit(AnalysisFactors(change, context, Mean(TypedConfidences(d)), 1.0, reply.totalTokens / maxTokens));
    }
  }

  /**
   * A reply that does not parse, or parses to `null`, is analysed in tier 0: the result holds the
   * default sections unchanged, and the confidence is the figure for a mean of 0.5 and no schema.
   */
  lemma {:induction false} UnusableReplyAnalysis(e: ScoringEngine, maxTokens: real, provider: string, change: ChangeInput,
                              context: AnalysisContext, reply: Completion, parse: string -> Option<Json>,
                              stamp: Stamp)
    requires maxTokens != 0.0
    requires parse(reply.content).None? || parse(reply.content) == Some(Null)
    ensures var r := Analysis(e.weights, maxTokens, provider, change, context, Ok(reply), parse, stamp);
      && r.Ok?
      && r.value.risks == Arr([RiskJson(ParseErrorRisk)])
      && r.value.affectedComponents == Arr([]) && r.value.suggestions == Arr([])
      && r.value.styleConsistency == StyleReviewJson(DefaultStyleReview)
      && r.value.prScore == PRScoreJson(DefaultPRScore)
      && r.value.confidence == Some(ConfidenceFigure(AnalysisFactors(change, context, 0.5, 0.0, reply.totalTokens / maxTokens)))
  {
    var tiered := TierOf(parse(reply.content));
    assert tiered == Tiered(0.0, DefaultSections);
    DefaultScoreKept(e);
    assert DefaultSections.(prScore := PRScoreJson(DefaultPRScore)) == DefaultSections;
    DefaultAverage();
    assert RisksJson([ParseErrorRisk]) == [RiskJson(ParseErrorRisk)];
  }

  /** The confidences of the default result average 0.5. */
  lemma {:induction false} DefaultAverage()
    ensures AverageConfidence(SectionsJson(DefaultSections)) == Ok(Some(0.5))
  {
    DefaultResultConsistent(DefaultWeights);
    AverageOfValidated(DefaultResult);
  }

  /** A reply that parses but fails validation is analysed in tier 0.5, on the fallback sections. */
  lemma {:induction false} PartialReplyAnalysis(e: ScoringEngine, maxTokens: real, provider: string, change: ChangeInput,
                             context: AnalysisContext, reply: Completion, parse: string -> Option<Json>,
                             stamp: Stamp)
    requires maxTokens != 0.0
    requires parse(reply.content).Some? && !parse(reply.content).value.Null?
    requires DecodeAnalysisResult(parse(reply.content).value).Err?
    ensures var r := Analysis(e.weights, maxTokens, provider, change, context, Ok(reply), parse, stamp);
      var fallback := FallbackSections(parse(reply.content).value).value;
      var validated := RawValidate(e.weights, fallback.prScore);
      && (r.Ok? ==>
            (validated.Ok? && r.value.prScore == validated.value
             && r.value.affectedComponents == fallback.affectedComponents
             && r.value.risks == fallback.risks && r.value.suggestions == fallback.suggestions
             && r.value.styleConsistency == fallback.styleConsistency))
      && (validated.Err? ==> r == Err(TypeError))
      && (r.Ok? && r.value.confidence.Some? ==>
            (r.value.confidence.value == ConfidenceFigure(AnalysisFactors(change, context,
               AverageConfidence(SectionsJson(fallback.(prScore := validated.value))).value.value, 0.5,
               reply.totalTokens / maxTokens))))
  {
  }

  // ---------------------------------------------------------------------------
  // The event stream

  datatype Event =
    | Start(totalChanges: nat, completedChanges: nat)
    | Progress(changeId: string, totalChanges: nat, completedChanges: nat)
    | ResultEvent(changeId: string, result: AnalysisResult, totalChanges: nat, completedChanges: nat)
    | ErrorEvent(changeId: string, error: string, totalChanges: nat, completedChanges: nat)
    | Complete(totalChanges: nat, completedChanges: nat)

  /**
   * The `progress` field of a `progress` or `result` event, `completedChanges / totalChanges`: it is
   * computed from the two counters the event carries rather than stored beside them.
   */
  function ProgressOf(e: Event): (p: real)
    requires (e.Progress? || e.ResultEvent?) && e.totalChanges > 0
    ensures p * e.totalChanges as real == e.completedChanges as real
  {
    e.completedChanges as real / e.totalChanges as real
  }

  /** What a generator yields, and what it throws after its last event, if it ends by throwing. */
  datatype Stream = Stream(events: seq<Event>, failure: Option<Thrown>)

  /** `BatchAnalysisOptions`; absent options behave as `BatchOptions(false, None)`. */
  datatype BatchOptions = BatchOptions(parallel: bool, concurrency: Option<nat>)

  /** `options.concurrency || 3`. */
  function WindowSize(concurrency: Option<nat>): (k: nat)
    ensures k > 0
    ensures concurrency.Some? && concurrency.value != 0 ==> k == concurrency.value
    ensures concurrency.None? || concurrency.value == 0 ==> k == 3
  {
    if concurrency.Some? && concurrency.value != 0 then concurrency.value else 3
  }

  type Outcome = Result<AnalysisResult, Thrown>

  /**
   * `outcomes` holds the analysis of every change of a batch, each with its own provider reply and
   * stamp. The trigger keeps an element's analysis folded until that analysis itself is in play.
   */
  ghost predicate AreOutcomes(outcomes: seq<Outcome>, w: ScoringWeights, maxTokens: real, provider: string,
                              changes: seq<ChangeInput>, context: AnalysisContext,
                              responses: seq<Result<Completion, Thrown>>, parse: string -> Option<Json>,
                              stamps: seq<Stamp>)
    requires maxTokens != 0.0
    requires |responses| == |changes| && |stamps| == |changes|
  {
    && |outcomes| == |changes|
    && forall j {:trigger Analysis(w, maxTokens, provider, changes[j], context, responses[j], parse, stamps[j])} ::
         0 <= j < |changes| ==>
           outcomes[j] == Analysis(w, maxTokens, provider, changes[j], context, responses[j], parse, stamps[j])
  }

  /** Every batch has its outcomes: each change is analysed on its own. */
  lemma {:induction false} BatchOutcomes(w: ScoringWeights, maxTokens: real, provider: string, changes: seq<ChangeInput>,
                      context: AnalysisContext, responses: seq<Result<Completion, Thrown>>,
                      parse: string -> Option<Json>, stamps: seq<Stamp>) returns (outcomes: seq<Outcome>)
    requires maxTokens != 0.0
    requires |responses| == |changes| && |stamps| == |changes|
    ensures AreOutcomes(outcomes, w, maxTokens, provider, changes, context, responses, parse, stamps)
  {
    outcomes := seq(|changes|, j requires 0 <= j < |changes| =>
      Analysis(w, maxTokens, provider, changes[j], context, responses[j], parse, stamps[j]));
  }

  /** The `completed` counter after the first `n` changes: the successes among them. */
  function Successes(outcomes: seq<Outcome>, n: nat): (c: nat)
    requires n <= |outcomes|
    ensures c <= n
  {
    if n == 0 then 0 else Successes(outcomes, n - 1) + (if outcomes[n - 1].Ok? then 1 else 0)
  }

  lemma {:induction false} SuccessesMonotone(outcomes: seq<Outcome>, a: nat, b: nat)
    requires a <= b <= |outcomes|
    ensures Successes(outcomes, a) <= Successes(outcomes, b)
    decreases b - a
  {
    if a < b {
      SuccessesMonotone(outcomes, a, b - 1);
    }
  }

  /** The results of the successful analyses among the first `n`, in input order. */
  function Successful(outcomes: seq<Outcome>, n: nat): (r: seq<AnalysisResult>)
    requires n <= |outcomes|
  {
    if n == 0 then [] else Successful(outcomes, n - 1) + (if outcomes[n - 1].Ok? then [outcomes[n - 1].value] else [])
  }

  // Sequential mode

  /** `progress`, then `result` or `error`, for one change analysed after `completed` successes. */
  function ItemEvents(id: string, outcome: Outcome, completed: nat, total: nat): seq<Event>
    requires total > 0
  {
    [Progress(id, total, completed)]
    + if outcome.Ok? then [ResultEvent(id, outcome.value, total, completed + 1)]
      else [ErrorEvent(id, ErrorMessage(outcome.error), total, completed)]
  }

  function SequentialEvents(changes: seq<ChangeInput>, outcomes: seq<Outcome>, n: nat): (r: seq<Event>)
    requires |outcomes| == |changes| && n <= |changes|
    ensures |r| == 2 * n
  {
    if n == 0 then []
    else SequentialEvents(changes, outcomes, n - 1)
         + ItemEvents(changes[n - 1].id, outcomes[n - 1], Successes(outcomes, n - 1), |changes|)
  }

  /** Sequential mode: `start`, two events per change, `complete`; a failure never escapes. */
  function SequentialStream(changes: seq<ChangeInput>, outcomes: seq<Outcome>): Stream
    requires |outcomes| == |changes|
  {
    var n := |changes|;
    Stream([Start(n, 0)] + SequentialEvents(changes, outcomes, n) + [Complete(n, Successes(outcomes, n))], None)
  }

  // Parallel mode

  predicate AllOk(outcomes: seq<Outcome>) {
    forall i :: 0 <= i < |outcomes| ==> outcomes[i].Ok?
  }

  predicate OkBefore(outcomes: seq<Outcome>, m: nat)
    requires m <= |outcomes|
  {
    forall j :: 0 <= j < m ==> outcomes[j].Ok?
  }

  /** The position of the first failure. */
  function FirstFailure(outcomes: seq<Outcome>): (f: nat)
    requires !AllOk(outcomes)
    ensures f < |outcomes| && outcomes[f].Err? && OkBefore(outcomes, f)
  {
    if outcomes[0].Err? then 0
    else
      assert !AllOk(outcomes[1..]) by {
        var i :| 0 <= i < |outcomes| && !outcomes[i].Ok?;
        assert outcomes[1..][i - 1] == outcomes[i];
      }
      1 + FirstFailure(outcomes[1..])
  }

  /**
   * The rejection a window reports. Which of several rejections `Promise.all` reports depends on
   * timing; this takes the first in input order.
   */
  function FirstError(outcomes: seq<Outcome>): Thrown
    requires !AllOk(outcomes)
  {
    outcomes[FirstFailure(outcomes)].error
  }

  /** The `result` events of the first `m` changes, all of them successes. */
  function ParallelResults(outcomes: seq<Outcome>, m: nat): (r: seq<Event>)
    requires m <= |outcomes| && OkBefore(outcomes, m)
    ensures |r| == m
  {
    seq(m, j requires 0 <= j < m => ResultEvent(outcomes[j].value.changeId, outcomes[j].value, |outcomes|, j + 1))
  }

  lemma {:induction false} ParallelResultsStep(outcomes: seq<Outcome>, m: nat)
    requires m < |outcomes| && OkBefore(outcomes, m + 1)
    ensures ParallelResults(outcomes, m + 1) == ParallelResults(outcomes, m) +
      [ResultEvent(outcomes[m].value.changeId, outcomes[m].value, |outcomes|, m + 1)]
  {
  }

  /** The end of the window that starts at `i`. */
  function WindowEnd(i: nat, k: nat, n: nat): (e: nat)
    requires i < n && k > 0
    ensures i < e <= n
  {
    if i + k < n then i + k else n
  }

  /**
   * Parallel mode from the window that starts at `i` on, every earlier change having succeeded:
   * a window with a failure ends the stream there, throwing, without `complete`.
   */
  function ParallelFrom(outcomes: seq<Outcome>, k: nat, i: nat): Stream
    requires k > 0 && i <= |outcomes| && OkBefore(outcomes, i)
    decreases |outcomes| - i
  {
    var n := |outcomes|;
    if i == n then Stream([Start(n, 0)] + ParallelResults(outcomes, n) + [Complete(n, n)], None)
    else
      var end := WindowEnd(i, k, n);
      var window := outcomes[i..end];
      if !AllOk(window) then Stream([Start(n, 0)] + ParallelResults(outcomes, i), Some(FirstError(window)))
      else
        assert OkBefore(outcomes, end) by {
          forall j | i <= j < end ensures outcomes[j].Ok? {
            assert window[j - i] == outcomes[j];
          }
        }
        ParallelFrom(outcomes, k, end)
  }

  /** `analyzeStream(changes, context, options)` given the outcome of each analysis. */
  function StreamOf(changes: seq<ChangeInput>, options: BatchOptions, outcomes: seq<Outcome>): Stream
    requires |outcomes| == |changes|
  {
    if options.parallel then ParallelFrom(outcomes, WindowSize(options.concurrency), 0)
    else SequentialStream(changes, outcomes)
  }

  // analyzeAll

  /** The payloads of the `result` events, in order. */
  function ResultsOf(events: seq<Event>): seq<AnalysisResult> {
    if |events| == 0 then []
    else
      var last := events[|events| - 1];
      ResultsOf(events[..|events| - 1]) + (if last.ResultEvent? then [last.result] else [])
  }

  /** `analyzeAll`: every result payload, unless the stream throws. */
  function AllResults(s: Stream): Result<seq<AnalysisResult>, Thrown> {
    if s.failure.Some? then Err(s.failure.value) else Ok(ResultsOf(s.events))
  }

  // Properties of the stream

  lemma {:induction false} ResultsOfAppend(a: seq<Event>, b: seq<Event>)
    ensures ResultsOf(a + b) == ResultsOf(a) + ResultsOf(b)
    decreases |b|
  {
    if |b| == 0 {
      assert a + b == a;
    } else {
      var k := |b| - 1;
      assert (a + b)[..|a + b| - 1] == a + b[..k];
      ResultsOfAppend(a, b[..k]);
    }
  }

  /** The two events of the `j`-th change sit at positions `2j` and `2j + 1` of the item events. */
  lemma {:induction false} SequentialEventsAt(changes: seq<ChangeInput>, outcomes: seq<Outcome>, n: nat, j: nat)
    requires |outcomes| == |changes| && j < n <= |changes|
    ensures var items := SequentialEvents(changes, outcomes, n);
      var item := ItemEvents(changes[j].id, outcomes[j], Successes(outcomes, j), |changes|);
      items[2 * j] == item[0] && items[2 * j + 1] == item[1]
  {
    if j < n - 1 {
      SequentialEventsAt(changes, outcomes, n - 1, j);
    }
  }

  /** Sequential mode: `start` with nothing completed, two events per change, `complete` with the successes; it never throws. */
  lemma {:induction false} SequentialFrame(changes: seq<ChangeInput>, outcomes: seq<Outcome>)
    requires |outcomes| == |changes|
    ensures var s := SequentialStream(changes, outcomes);
      && s.failure.None?
      && |s.events| == 2 * |changes| + 2
      && s.events[0] == Start(|changes|, 0)
      && s.events[2 * |changes| + 1] == Complete(|changes|, Successes(outcomes, |changes|))
  {
  }

  /**
   * The `j`-th change of a sequential run: a `progress` event reporting the successes before
   * it, then either its `result` or an `error` carrying the rejection's message.
   */
  lemma {:induction false} SequentialItem(changes: seq<ChangeInput>, outcomes: seq<Outcome>, j: nat)
    requires |outcomes| == |changes| && j < |changes|
    ensures var events := SequentialStream(changes, outcomes).events;
      var n := |changes|;
      var done := Successes(outcomes, j);
      && events[2 * j + 1] == Progress(changes[j].id, n, done)
      && (outcomes[j].Ok? ==>
            events[2 * j + 2] == ResultEvent(changes[j].id, outcomes[j].value, n, done + 1))
      && (outcomes[j].Err? ==> events[2 * j + 2] == ErrorEvent(changes[j].id, ErrorMessage(outcomes[j].error), n, done))
  {
    var n := |changes|;
    var items := SequentialEvents(changes, outcomes, n);
    var events := [Start(n, 0)] + items + [Complete(n, Successes(outcomes, n))];
    SequentialEventsAt(changes, outcomes, n, j);
    assert events[2 * j + 1] == items[2 * j];
    assert events[2 * j + 2] == items[2 * j + 1];
  }

  /** Every event of a sequential stream reports the successes so far, so the counter never goes down. */
  lemma {:induction false} SequentialCounters(changes: seq<ChangeInput>, outcomes: seq<Outcome>, t: nat, u: nat)
    requires |outcomes| == |changes| && t <= u < |SequentialStream(changes, outcomes).events|
    ensures var events := SequentialStream(changes, outcomes).events;
      && events[t].completedChanges == Successes(outcomes, t / 2)
      && events[t].completedChanges <= events[u].completedChanges <= |changes|
  {
    SequentialFrame(changes, outcomes);
    SequentialCounterAt(changes, outcomes, t);
    SequentialCounterAt(changes, outcomes, u);
    SuccessesMonotone(outcomes, t / 2, u / 2);
  }

  /** Event `v` of a sequential stream reports the successes among the first `v / 2` changes. */
  lemma {:induction false} SequentialCounterAt(changes: seq<ChangeInput>, outcomes: seq<Outcome>, v: nat)
    requires |outcomes| == |changes| && v < |SequentialStream(changes, outcomes).events|
    ensures SequentialStream(changes, outcomes).events[v].completedChanges == Successes(outcomes, v / 2)
  {
    SequentialFrame(changes, outcomes);
    if 0 < v < 2 * |changes| + 1 {
      var j := (v - 1) / 2;
      HalfSteps(v);
      SequentialItem(changes, outcomes, j);
    }
  }

  lemma {:induction false} HalfSteps(v: nat)
    requires v > 0
    ensures var j := (v - 1) / 2; (v == 2 * j + 1 && v / 2 == j) || (v == 2 * j + 2 && v / 2 == j + 1)
  {
  }

  lemma {:induction false} ResultsOfItem(id: string, outcome: Outcome, completed: nat, total: nat)
    requires total > 0
    ensures ResultsOf(ItemEvents(id, outcome, completed, total)) == if outcome.Ok? then [outcome.value] else []
  {
    var item := ItemEvents(id, outcome, completed, total);
    ResultsOfSingle(item[0]);
    assert item[..|item| - 1] == [item[0]];
  }

  lemma {:induction false} ResultsOfSingle(event: Event)
    ensures ResultsOf([event]) == if event.ResultEvent? then [event.result] else []
  {
    assert [event][..0] == [];
  }

  /** What `analyzeAll` gathers in sequential mode: every successful analysis, in input order. */
  lemma {:induction false} SequentialResults(changes: seq<ChangeInput>, outcomes: seq<Outcome>, n: nat)
    requires |outcomes| == |changes| && n <= |changes|
    ensures ResultsOf(SequentialEvents(changes, outcomes, n)) == Successful(outcomes, n)
  {
    if n > 0 {
      var before := SequentialEvents(changes, outcomes, n - 1);
      var item := ItemEvents(changes[n - 1].id, outcomes[n - 1], Successes(outcomes, n - 1), |changes|);
      var tail := if outcomes[n - 1].Ok? then [outcomes[n - 1].value] else [];
      SequentialResults(changes, outcomes, n - 1);
      ResultsOfItem(changes[n - 1].id, outcomes[n - 1], Successes(outcomes, n - 1), |changes|);
      ResultsOfThen(before, item, Successful(outcomes, n - 1), tail);
    }
  }

  lemma {:induction false} ResultsOfThen(before: seq<Event>, item: seq<Event>, prior: seq<AnalysisResult>,
                                         tail: seq<AnalysisResult>)
    requires ResultsOf(before) == prior && ResultsOf(item) == tail
    ensures ResultsOf(before + item) == prior + tail
  {
    ResultsOfAppend(before, item);
  }

  /** The payloads of the `result` events of the first `m` changes of a parallel run. */
  lemma {:induction false} ParallelResultsPayloads(outcomes: seq<Outcome>, m: nat)
    requires m <= |outcomes| && OkBefore(outcomes, m)
    ensures ResultsOf(ParallelResults(outcomes, m)) == Successful(outcomes, m)
  {
    if m > 0 {
      ParallelResultsPayloads(outcomes, m - 1);
      assert ParallelResults(outcomes, m)[..m - 1] == ParallelResults(outcomes, m - 1);
    }
  }

  /** A window whose changes all succeed yields their results and hands on to the next window. */
  lemma {:induction false} ParallelFromNext(outcomes: seq<Outcome>, k: nat, i: nat)
    requires k > 0 && i < |outcomes| && OkBefore(outcomes, WindowEnd(i, k, |outcomes|))
    ensures ParallelFrom(outcomes, k, i) == ParallelFrom(outcomes, k, WindowEnd(i, k, |outcomes|))
  {
    var window := outcomes[i..WindowEnd(i, k, |outcomes|)];
    assert AllOk(window) by {
      forall j | 0 <= j < |window| ensures window[j].Ok? {
        assert window[j] == outcomes[i + j];
      }
    }
  }

  /** One window of parallel mode: it either throws its first error or hands on to the next window. */
  lemma {:induction false} ParallelStep(outcomes: seq<Outcome>, k: nat, i: nat, settled: seq<Outcome>)
    requires k > 0 && i < |outcomes| && OkBefore(outcomes, i)
    requires settled == outcomes[i..WindowEnd(i, k, |outcomes|)]
    ensures !AllOk(settled) ==>
      ParallelFrom(outcomes, k, i) == Stream([Start(|outcomes|, 0)] + ParallelResults(outcomes, i), Some(FirstError(settled)))
    ensures AllOk(settled) ==> OkBefore(outcomes, WindowEnd(i, k, |outcomes|))
    ensures AllOk(settled) ==> ParallelFrom(outcomes, k, i) == ParallelFrom(outcomes, k, WindowEnd(i, k, |outcomes|))
  {
    if AllOk(settled) {
      var end := WindowEnd(i, k, |outcomes|);
      assert OkBefore(outcomes, end) by {
        forall j | 0 <= j < end ensures outcomes[j].Ok? {
          if j >= i {
            assert settled[j - i] == outcomes[j];
          }
        }
      }
      ParallelFromNext(outcomes, k, i);
    }
  }

  /** Parallel mode with every analysis succeeding: one `result` per change, in input order, then `complete`. */
  lemma {:induction false} ParallelAllOk(outcomes: seq<Outcome>, k: nat, i: nat)
    requires k > 0 && i <= |outcomes| && AllOk(outcomes)
    ensures ParallelFrom(outcomes, k, i)
         == Stream([Start(|outcomes|, 0)] + ParallelResults(outcomes, |outcomes|) + [Complete(|outcomes|, |outcomes|)], None)
    decreases |outcomes| - i
  {
    if i < |outcomes| {
      ParallelFromNext(outcomes, k, i);
      ParallelAllOk(outcomes, k, WindowEnd(i, k, |outcomes|));
    }
  }

  lemma {:induction false} FirstFailureIs(outcomes: seq<Outcome>, f: nat)
    requires f < |outcomes| && outcomes[f].Err? && OkBefore(outcomes, f)
    ensures !AllOk(outcomes) && FirstFailure(outcomes) == f
  {
    if f > 0 {
      FirstFailureIs(outcomes[1..], f - 1);
    }
  }

  /** The windows of size `k` that start at `i` include one that starts at `g`. */
  predicate OnGrid(i: nat, k: nat, g: nat)
    requires k > 0
    decreases g - i
  {
    i == g || (i + k <= g && OnGrid(i + k, k, g))
  }

  /** The windows from the start of the batch include every multiple of `k`. */
  lemma {:induction false} GridMultiple(k: nat, g: nat, m: nat)
    requires k > 0 && m * k <= g
    ensures OnGrid(g - m * k, k, g)
    decreases m
  {
    if m > 0 {
      assert (m - 1) * k == m * k - k;
      GridMultiple(k, g, m - 1);
    }
  }

  /** The window holding the first failing change ends the stream with that change's error. */
  lemma {:induction false} FailingWindow(outcomes: seq<Outcome>, k: nat, i: nat)
    requires k > 0 && !AllOk(outcomes)
    requires var f := FirstFailure(outcomes); i == f - f % k
    ensures OkBefore(outcomes, i)
    ensures ParallelFrom(outcomes, k, i)
         == Stream([Start(|outcomes|, 0)] + ParallelResults(outcomes, i), Some(outcomes[FirstFailure(outcomes)].error))
  {
    var f := FirstFailure(outcomes);
    var window := outcomes[i..WindowEnd(i, k, |outcomes|)];
    assert window[f - i] == outcomes[f];
    assert OkBefore(window, f - i) by {
      forall j | 0 <= j < f - i ensures window[j].Ok? {
        assert window[j] == outcomes[i + j];
      }
    }
    FirstFailureIs(window, f - i);
  }

  /**
   * Parallel mode with a failure: the windows before the one holding the first failing change
   * yield their results, then the stream throws that change's error, with no `complete`.
   */
  lemma {:induction false} ParallelFailure(outcomes: seq<Outcome>, k: nat)
    requires k > 0 && !AllOk(outcomes)
    ensures var f := FirstFailure(outcomes); OkBefore(outcomes, f - f % k)
    ensures var f := FirstFailure(outcomes);
      ParallelFrom(outcomes, k, 0)
        == Stream([Start(|outcomes|, 0)] + ParallelResults(outcomes, f - f % k), Some(outcomes[f].error))
  {
    var f := FirstFailure(outcomes);
    var g := f - f % k;
    WindowOfOnGrid(k, f);
    FailingWindow(outcomes, k, g);
    ParallelFailureFrom(outcomes, k, 0, g);
  }

  /** The window holding change `f` is one of those that start from 0 in steps of `k`. */
  lemma {:induction false} WindowOfOnGrid(k: nat, f: nat)
    requires k > 0
    ensures OnGrid(0, k, f - f % k)
  {
    assert f - f % k == (f / k) * k;
    GridMultiple(k, f - f % k, f / k);
  }

  /** The windows that start on the way to window `g` all succeed and hand on to it. */
  lemma {:induction false} ParallelFailureFrom(outcomes: seq<Outcome>, k: nat, i: nat, g: nat)
    requires k > 0 && g <= |outcomes| && OkBefore(outcomes, g) && OnGrid(i, k, g)
    ensures i <= g && ParallelFrom(outcomes, k, i) == ParallelFrom(outcomes, k, g)
    decreases g - i
  {
    if i != g {
      assert i + k <= g && OnGrid(i + k, k, g);
      ParallelFailureFrom(outcomes, k, i + k, g);
      assert WindowEnd(i, k, |outcomes|) == i + k;
      ParallelFromNext(outcomes, k, i);
    }
  }

  /**
   * `analyzeAll`: in sequential mode, and in parallel mode when every analysis succeeds, the
   * successful results in input order; in parallel mode with a failure, that failure's error.
   */
  lemma {:induction false} AllResultsOf(changes: seq<ChangeInput>, options: BatchOptions, outcomes: seq<Outcome>)
    requires |outcomes| == |changes|
    ensures AllResults(StreamOf(changes, options, outcomes)) ==
      if options.parallel && !AllOk(outcomes) then Err(outcomes[FirstFailure(outcomes)].error)
      else Ok(Successful(outcomes, |outcomes|))
  {
    var n := |outcomes|;
    var k := WindowSize(options.concurrency);
    if !options.parallel {
      SequentialAllResults(changes, outcomes);
    } else if AllOk(outcomes) {
      ParallelAllResults(outcomes, k);
    } else {
      ParallelFailure(outcomes, k);
    }
  }

  lemma {:induction false} SequentialAllResults(changes: seq<ChangeInput>, outcomes: seq<Outcome>)
    requires |outcomes| == |changes|
    ensures AllResults(SequentialStream(changes, outcomes)) == Ok(Successful(outcomes, |outcomes|))
  {
    var n := |outcomes|;
    SequentialResults(changes, outcomes, n);
    FramedResults(n, SequentialEvents(changes, outcomes, n), Successes(outcomes, n));
  }

  lemma {:induction false} ParallelAllResults(outcomes: seq<Outcome>, k: nat)
    requires k > 0 && AllOk(outcomes)
    ensures AllResults(ParallelFrom(outcomes, k, 0)) == Ok(Successful(outcomes, |outcomes|))
  {
    var n := |outcomes|;
    ParallelAllOk(outcomes, k, 0);
    ParallelResultsPayloads(outcomes, n);
    FramedResults(n, ParallelResults(outcomes, n), n);
  }

  /** `start` and `complete` carry no result. */
  lemma {:induction false} FramedResults(n: nat, items: seq<Event>, completed: nat)
    ensures ResultsOf([Start(n, 0)] + items + [Complete(n, completed)]) == ResultsOf(items)
  {
    ResultsOfSingle(Start(n, 0));
    ResultsOfSingle(Complete(n, completed));
    ResultsOfAppend([Start(n, 0)], items);
    ResultsOfAppend([Start(n, 0)] + items, [Complete(n, completed)]);
  }

  /** The `progress` event of the `j`-th change, then its `result`, or an `error` when its analysis throws. */
  method YieldItem(ghost outcomes: seq<Outcome>, changes: seq<ChangeInput>, events: seq<Event>, completed: nat,
                   j: nat, result: Outcome) returns (events': seq<Event>, completed': nat)
    requires |outcomes| == |changes| && j < |changes| && result == outcomes[j]
    requires completed == Successes(outcomes, j)
    requires events == [Start(|changes|, 0)] + SequentialEvents(changes, outcomes, j)
    ensures completed' == Successes(outcomes, j + 1)
    ensures events' == [Start(|changes|, 0)] + SequentialEvents(changes, outcomes, j + 1)
  {
    var n := |changes|;
    var change := changes[j];
    events' := events + [Progress(change.id, n, completed)];
    completed' := completed;
    if result.Ok? {
      completed' := completed' + 1;
      events' := events' + [ResultEvent(change.id, result.value, n, completed')];
    } else {
      events' := events' + [ErrorEvent(change.id, ErrorMessage(result.error), n, completed')];
    }
    assert events' == events + ItemEvents(change.id, result, completed, n);
  }

  /** The `result` events of a window that settled without a failure, one per change, in order. */
  method YieldWindow(ghost outcomes: seq<Outcome>, n: nat, events: seq<Event>, completed: nat, settled: seq<Outcome>)
    returns (events': seq<Event>, completed': nat)
    requires n == |outcomes| && completed + |settled| <= n && OkBefore(outcomes, completed)
    requires settled == outcomes[completed..completed + |settled|] && AllOk(settled)
    requires events == [Start(|outcomes|, 0)] + ParallelResults(outcomes, completed)
    ensures completed' == completed + |settled| && OkBefore(outcomes, completed')
    ensures events' == [Start(|outcomes|, 0)] + ParallelResults(outcomes, completed')
  {
    events', completed' := events, completed;
    var b := 0;
    while b < |settled|
      invariant 0 <= b <= |settled|
      invariant completed' == completed + b
      invariant OkBefore(outcomes, completed')
      invariant events' == [Start(n, 0)] + ParallelResults(outcomes, completed')
    {
      assert settled[b] == outcomes[completed'];
      var result := settled[b].value;
      ParallelResultsStep(outcomes, completed');
      completed' := completed' + 1;
      events' := events' + [ResultEvent(result.changeId, result, n, completed')];
      b := b + 1;
    }
  }

  // ---------------------------------------------------------------------------
  // The analyzer

  class ChangeAnalyzer {
    /** The provider's name; its `complete` call is an input of each analysis. */
    const provider: string
    const scoringEngine: ScoringEngine
    const maxTokens: real
    /** Only passed on to the provider. */
    const temperature: real

    constructor(providerName: string, weights: Option<PartialWeights>, configuredMaxTokens: Option<real>,
                configuredTemperature: Option<real>)
      ensures provider == providerName
      ensures scoringEngine.weights == MergeWeights(weights)
      ensures maxTokens == MaxTokensOf(configuredMaxTokens) && maxTokens != 0.0
      ensures temperature == TemperatureOf(configuredTemperature)
    {
      provider := providerName;
      scoringEngine := new ScoringEngine(weights);
      maxTokens := MaxTokensOf(configuredMaxTokens);
      temperature := TemperatureOf(configuredTemperature);
    }

    method Analyze(change: ChangeInput, context: AnalysisContext, response: Result<Completion, Thrown>,
                   parse: string -> Option<Json>, stamp: Stamp) returns (r: Result<AnalysisResult, Thrown>)
      requires maxTokens != 0.0
      ensures r == Analysis(scoringEngine.weights, maxTokens, provider, change, context, response, parse, stamp)
    {
      var startTime := stamp.timestamp;
      if response.Err? {
        return Err(response.error);
      }
      var schemaValidation, analysisData := ReadReply(parse(response.value.content));
      var validatedPrScore := RawValidate(scoringEngine.weights, analysisData.prScore);
      if validatedPrScore.Err? {
        return Err(validatedPrScore.error);
      }
      analysisData := analysisData.(prScore := validatedPrScore.value);
      var llmConfidence := ExtractAverageConfidence(SectionsJson(analysisData));
      if llmConfidence.Err? {
        return Err(llmConfidence.error);
      }
      var contextAvailable := EstimateContextQuality(context);
      var changeComplexity := EstimateChangeComplexity(change);
      var confidence: Option<real> := None;
      if llmConfidence.value.Some? {
        var figure := CalculateConfidence(ConfidenceFactors(contextAvailable, changeComplexity,
          llmConfidence.value.value, schemaValidation, Some(response.value.totalTokens / maxTokens)));
        confidence := Some(figure);
      }
      r := Ok(AnalysisResult(stamp.id, change.id, startTime, analysisData.affectedComponents, analysisData.risks,
                             analysisData.suggestions, analysisData.styleConsistency, analysisData.prScore,
                             confidence, provider, response.value.totalTokens, response.value.content));
    }

    /**
     * The `try`/`catch` around parsing the reply: the validated sections, the fallback's, or the
     * default result's, with the schema-validation tier each earns.
     */
    static method ReadReply(parsed: Option<Json>) returns (schemaValidation: real, analysisData: Sections)
      ensures Tiered(schemaValidation, analysisData) == TierOf(parsed)
    {
      schemaValidation := 1.0;
      if parsed.None? {
        schemaValidation := 0.0;
        analysisData := DefaultSections;
      } else {
        var result := SafeParseAnalysisResult(parsed.value);
        if result.success && result.data.Some? {
          analysisData := SectionsOf(result.data.value);
        } else {
          schemaValidation := 0.5;
          var fallback := FallbackSections(parsed.value);
          if fallback.Err? {
            schemaValidation := 0.0;
            analysisData := DefaultSections;
          } else {
            analysisData := fallback.value;
          }
        }
      }
    }

    /**
     * `analyzeStream`: the events of the batch in the mode the options ask for, over the
     * outcomes of its changes.
     */
    method AnalyzeStream(changes: seq<ChangeInput>, context: AnalysisContext, options: BatchOptions,
                         responses: seq<Result<Completion, Thrown>>, parse: string -> Option<Json>,
                         stamps: seq<Stamp>) returns (s: Stream, ghost outcomes: seq<Outcome>)
      requires maxTokens != 0.0
      requires |responses| == |changes| && |stamps| == |changes|
      ensures AreOutcomes(outcomes, scoringEngine.weights, maxTokens, provider, changes, context, responses, parse, stamps)
      ensures s == StreamOf(changes, options, outcomes)
    {
      if options.parallel {
        s, outcomes := AnalyzeParallel(changes, context, WindowSize(options.concurrency), responses, parse, stamps);
      } else {
        s, outcomes := AnalyzeSequential(changes, context, responses, parse, stamps);
      }
    }

    /** Sequential mode: each change in turn, its failure reported as an `error` event. */
    method AnalyzeSequential(changes: seq<ChangeInput>, context: AnalysisContext,
                             responses: seq<Result<Completion, Thrown>>, parse: string -> Option<Json>,
                             stamps: seq<Stamp>) returns (s: Stream, ghost outcomes: seq<Outcome>)
      requires maxTokens != 0.0
      requires |responses| == |changes| && |stamps| == |changes|
      ensures AreOutcomes(outcomes, scoringEngine.weights, maxTokens, provider, changes, context, responses, parse, stamps)
      ensures s == SequentialStream(changes, outcomes)
    {
      outcomes := BatchOutcomes(scoringEngine.weights, maxTokens, provider, changes, context, responses, parse, stamps);
      var n := |changes|;
      var events := [Start(n, 0)];
      var completed := 0;
      var j := 0;
      while j < n
        invariant 0 <= j <= n
        invariant completed == Successes(outcomes, j)
        invariant events == [Start(n, 0)] + SequentialEvents(changes, outcomes, j)
      {
        var result := AnalyzeAt(outcomes, changes, context, responses, parse, stamps, j);
        events, completed := YieldItem(outcomes, changes, events, completed, j, result);
        j := j + 1;
      }
      events := events + [Complete(n, completed)];
      s := Stream(events, None);
    }

    /** `this.analyze(changes[j], context)`, as the `j`-th outcome of the batch. */
    method AnalyzeAt(ghost outcomes: seq<Outcome>, changes: seq<ChangeInput>, context: AnalysisContext,
                     responses: seq<Result<Completion, Thrown>>, parse: string -> Option<Json>,
                     stamps: seq<Stamp>, j: nat) returns (r: Outcome)
      requires maxTokens != 0.0
      requires |responses| == |changes| && |stamps| == |changes| && j < |changes|
      requires AreOutcomes(outcomes, scoringEngine.weights, maxTokens, provider, changes, context, responses, parse, stamps)
      ensures r == outcomes[j]
    {
      r := Analyze(changes[j], context, responses[j], parse, stamps[j]);
    }

    /** The analyses of `changes[i..end]`, settled together as `Promise.all` awaits them. */
    method AnalyzeWindow(ghost outcomes: seq<Outcome>, changes: seq<ChangeInput>, context: AnalysisContext,
                         responses: seq<Result<Completion, Thrown>>, parse: string -> Option<Json>,
                         stamps: seq<Stamp>, i: nat, end: nat) returns (settled: seq<Outcome>)
      requires maxTokens != 0.0
      requires |responses| == |changes| && |stamps| == |changes| && i <= end <= |changes|
      requires AreOutcomes(outcomes, scoringEngine.weights, maxTokens, provider, changes, context, responses, parse, stamps)
      ensures settled == outcomes[i..end]
    {
      settled := [];
      var j := i;
      while j < end
        invariant i <= j <= end
        invariant settled == outcomes[i..j]
      {
        var result := AnalyzeAt(outcomes, changes, context, responses, parse, stamps, j);
        assert outcomes[i..j + 1] == outcomes[i..j] + [outcomes[j]];
        settled := settled + [result];
        j := j + 1;
      }
    }

    /** Parallel mode: windows of `concurrency` changes; a failing window ends the stream, throwing. */
    method AnalyzeParallel(changes: seq<ChangeInput>, context: AnalysisContext, concurrency: nat,
                           responses: seq<Result<Completion, Thrown>>, parse: string -> Option<Json>,
                           stamps: seq<Stamp>) returns (s: Stream, ghost outcomes: seq<Outcome>)
      requires maxTokens != 0.0 && concurrency > 0
      requires |responses| == |changes| && |stamps| == |changes|
      ensures AreOutcomes(outcomes, scoringEngine.weights, maxTokens, provider, changes, context, responses, parse, stamps)
      ensures s == ParallelFrom(outcomes, concurrency, 0)
    {
      outcomes := BatchOutcomes(scoringEngine.weights, maxTokens, provider, changes, context, responses, parse, stamps);
      var n := |changes|;
      var events := [Start(n, 0)];
      var completed := 0;
      var i := 0;
      while i < n
        invariant completed == (if i < n then i else n)
        invariant OkBefore(outcomes, completed)
        invariant events == [Start(n, 0)] + ParallelResults(outcomes, completed)
        invariant ParallelFrom(outcomes, concurrency, completed) == ParallelFrom(outcomes, concurrency, 0)
        decreases n - i
      {
        var end := WindowEnd(i, concurrency, n);
        var settled := AnalyzeWindow(outcomes, changes, context, responses, parse, stamps, i, end);
        ParallelStep(outcomes, concurrency, i, settled);
        if !AllOk(settled) {
          return Stream(events, Some(FirstError(settled))), outcomes;
        }
        events, completed := YieldWindow(outcomes, n, events, completed, settled);
        assert completed == end;
        i := i + concurrency;
      }
      events := events + [Complete(n, completed)];
      s := Stream(events, None);
    }

    /** `analyzeAll`: the results the stream yields, or what it throws. */
    method AnalyzeAll(changes: seq<ChangeInput>, context: AnalysisContext, options: BatchOptions,
                      responses: seq<Result<Completion, Thrown>>, parse: string -> Option<Json>,
                      stamps: seq<Stamp>) returns (r: Result<seq<AnalysisResult>, Thrown>, ghost outcomes: seq<Outcome>)
      requires maxTokens != 0.0
      requires |responses| == |changes| && |stamps| == |changes|
      ensures AreOutcomes(outcomes, scoringEngine.weights, maxTokens, provider, changes, context, responses, parse, stamps)
      ensures r == AllResults(StreamOf(changes, options, outcomes))
    {
      var stream;
      stream, outcomes := AnalyzeStream(changes, context, options, responses, parse, stamps);
      var results: seq<AnalysisResult> := [];
      var i := 0;
      while i < |stream.events|
        invariant 0 <= i <= |stream.events|
        invariant results == ResultsOf(stream.events[..i])
      {
        var event := stream.events[i];
        assert stream.events[..i + 1][..i] == stream.events[..i];
        if event.ResultEvent? {
          results := results + [event.result];
        }
        i := i + 1;
      }
      assert stream.events[..|stream.events|] == stream.events;
      if stream.failure.Some? {
        return Err(stream.failure.value), outcomes;
      }
      r := Ok(results);
    }
  }
}
