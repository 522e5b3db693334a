# A verified model of the AI code-review core

This project models in Dafny the deterministic heart of an AI-assisted code-review tool for visual web edits:

- the scoring authority that turns seven review metrics into an overall score, flags, a summary and an approval decision;
- the context and confidence estimators that feed the analysis;
- the result schema that validates a model's JSON reply, and the change analyzer that maps a reply to one of three tiers and streams per-change events in sequential or windowed parallel mode;
- the streaming helpers: server-sent-events framing as in the WHATWG HTML Standard, section 9.2 "Server-sent events", and a bracket-balancing JSON stream buffer;
- the voice-command pipeline: it builds the voice prompt from a template and normalises the model's proposed changes;
- the side panel's root store: upserting changes, replacing AI comments, prepending and updating pull requests, and the derived views;
- the shared utilities: rgb()/hex colour conversion as in CSS Color Module Level 4, sections 5.1 and 5.2, px parsing, relative-time buckets, and font labels.

The project has one Dafny module per source file:

- `Weights`, `Criteria`, `ScoringEngine`, `Context`, `Confidence`, `Schemas`, `ChangeAnalyzer`, `Streaming`, `VoiceIntent`, `VoicePrompts`, `Stores` and `SharedUtils`;
- the small support modules `Wrappers`, `JsMath` (Math.round and Math.abs), `JsStrings` (the JavaScript string built-ins the source calls), `Json` (the values `JSON.parse` yields) and `Records` (object literals as ordered member lists, looked up the way property access does).

How the model represents the source:

- Numbers are exact `real`s. `Math.round(x)` is `floor(x + 1/2)`.
- `JSON.parse`, `JSON.stringify` and the LLM provider's `complete` are function-valued parameters.
- The zod validators are written out as decoders over `Json` with the schema's ranges and enums.
- Code that loops or mutates state is a `method` or a `class` proved against a specification function: the scoring engine, the analyzer, the stream buffer, the voice processor and prompt builder, and the store.
- The rest is functions and lemmas.

## Model

Functions that only compute a value and carry no contract of their own (for example `SharedUtils.FormatRelativeTime`, `Stores.UpsertChange` or `Context.TextComplexity`) have no row: they are described by the lemma rows that name them and cite the same lines.

| member | source | states |
|---|---|---|
| Weights.Effective | packages/ai-comments/src/scoring/ScoringEngine.ts:27-29 | a metric contributes 100 - v when it is inverted and v otherwise |
| Weights.OnlyRisksInverted | packages/ai-comments/src/scoring/weights.ts:44-47 | exactly aiDetectionRisk and cascadeRisk are inverted |
| Weights.MergeWeights | packages/ai-comments/src/scoring/weights.ts:52-59 | no custom weights gives the defaults; every supplied key overrides its default; every other key keeps its default |
| Weights.DefaultWeightsValues | packages/ai-comments/src/scoring/weights.ts:30-38 | the defaults are 1.0, 0.8, 0.6, 1.2, 1.0, 0.9, 1.1, which sum to 6.6 |
| Weights.NormalizeWeights | packages/ai-comments/src/scoring/weights.ts:64-78 | a zero sum returns the weights unchanged; otherwise every weight is divided by the sum and the results sum to 1 |
| Weights.NormalizedSum | packages/ai-comments/src/scoring/weights.ts:69-77 | the seven quotients by the sum add up to 1 |
| Weights.NormalizedGet | packages/ai-comments/src/scoring/weights.ts:69-77 | each normalised weight times the sum is the original weight |
| Weights.NormalizePreservesRatios | packages/ai-comments/src/scoring/weights.ts:69-77 | normalisation keeps every pairwise ratio of weights |
| Criteria.Find | packages/ai-comments/src/scoring/criteria.ts:78 | the first entry with the key is found, and none is found exactly when no entry has the key |
| Criteria.CriterionOfMetric | packages/ai-comments/src/scoring/criteria.ts:15-72 | every metric has an entry, at its own index, inverted exactly when the metric is |
| Criteria.KeyAt | packages/ai-comments/src/scoring/criteria.ts:15-72 | the entry at a metric's index carries its key, and no earlier entry does |
| Criteria.FindAt | packages/ai-comments/src/scoring/criteria.ts:77-79 | a lookup finds the first entry whose key matches |
| Criteria.ThresholdsDisjoint | packages/ai-comments/src/scoring/criteria.ts:15-72 | in every entry the good range and the bad range are disjoint |
| Criteria.EvaluateUnknownKey | packages/ai-comments/src/scoring/criteria.ts:88-89 | a key without an entry is neutral |
| Criteria.EvaluateWith | packages/ai-comments/src/scoring/criteria.ts:84-102 | against an entry with disjoint ranges: good iff the value passes the good threshold, bad iff it passes the bad threshold, in the direction the inversion flag gives |
| Criteria.EvaluateMetric | packages/ai-comments/src/scoring/criteria.ts:91-99 | the same classification for each of the seven metrics, both directions of each iff |
| Criteria.RiskThresholds | packages/ai-comments/src/scoring/criteria.ts:33-47 | the risk thresholds are 30/70 for AI detection and 30/60 for cascade risk |
| Criteria.GetScoreLabel | packages/ai-comments/src/scoring/criteria.ts:107-114 | the label is the one at the score's rank in Poor .. Excellent |
| Criteria.LabelMonotone | packages/ai-comments/src/scoring/criteria.ts:107-114 | a higher score never gets a worse label |
| Criteria.LabelCutoffs | packages/ai-comments/src/scoring/criteria.ts:107-114 | label k is given exactly from cut-off 40 + 10k up to the next one (50, 60, 70, 80, 90) |
| Criteria.GetScoreColor | packages/ai-comments/src/scoring/criteria.ts:119-123 | green iff the score is at least 80, amber iff it is in [60, 80), red iff it is below 60 |
| Criteria.ColorFollowsLabel | packages/ai-comments/src/scoring/criteria.ts:107-123 | green exactly for Good and Excellent, amber for Needs Review and Acceptable, red below |
| ScoringEngine.TotalWeightIsSum | packages/ai-comments/src/scoring/ScoringEngine.ts:32 | the accumulated total weight is the sum of the seven weights |
| ScoringEngine.WeightedSumBounds | packages/ai-comments/src/scoring/ScoringEngine.ts:22-33 | with non-negative weights and metrics in [0, 100], the weighted sum lies between 0 and 100 times the total weight |
| ScoringEngine.OverallScoreInRange | packages/ai-comments/src/scoring/ScoringEngine.ts:18-36 | with non-negative weights of positive total and metrics in [0, 100], the overall score is in [0, 100] |
| ScoringEngine.UniformWeightedSum | packages/ai-comments/src/scoring/ScoringEngine.ts:22-33 | when every effective value is v, the weighted sum is v times the total weight |
| ScoringEngine.ExampleNinety | packages/ai-comments/src/scoring/ScoringEngine.ts:18-36 | metrics at 90 with both risks at 10 score 90 under the default weights |
| ScoringEngine.FlagsNext | packages/ai-comments/src/scoring/ScoringEngine.ts:64-81 | each metric appends its flag, if it has one, after those of the earlier metrics |
| ScoringEngine.FlagsAtMostOnePerMetric | packages/ai-comments/src/scoring/ScoringEngine.ts:64-81 | at most one flag per metric |
| ScoringEngine.FlagForClassifies | packages/ai-comments/src/scoring/ScoringEngine.ts:66-80 | a warning flag with confidence 0.9 exactly when the metric is bad; an info flag with confidence 0.8 exactly when it is good and at least 90; every flag is schema-valid |
| ScoringEngine.InvertedNeverInfo | packages/ai-comments/src/scoring/ScoringEngine.ts:74-80 | an inverted metric never earns an info flag |
| ScoringEngine.WeakestIsFirstMinimum | packages/ai-comments/src/scoring/ScoringEngine.ts:127-141 | the weakest area has the strictly smallest effective value, is the earliest metric with that value, and is code consistency when nothing is below 100 |
| ScoringEngine.ShouldApprove | packages/ai-comments/src/scoring/ScoringEngine.ts:165-175 | approval holds iff overall >= 60, cascade risk <= 80, semantic score >= 40 and intent alignment >= 50 |
| ScoringEngine.ApprovalMonotone | packages/ai-comments/src/scoring/ScoringEngine.ts:165-175 | better scores on the gated metrics never revoke approval |
| ScoringEngine.ApprovedNotRed | packages/ai-comments/src/scoring/ScoringEngine.ts:165-175 | an approved change is at least "Needs Review" and never red |
| ScoringEngine.ScoringEngine.constructor | packages/ai-comments/src/scoring/ScoringEngine.ts:11-13 | the engine's weights are the custom weights merged over the defaults |
| ScoringEngine.ScoringEngine.CalculateOverallScore | packages/ai-comments/src/scoring/ScoringEngine.ts:18-36 | the loop computes round(sum of w * v' / sum of w), and no number (NaN or an infinity) exactly when the weights sum to 0 |
| ScoringEngine.ScoringEngine.ValidateAndRecalculate | packages/ai-comments/src/scoring/ScoringEngine.ts:41-55 | only overall changes; it becomes the recomputed score iff it differs from it by more than 10; with weights summing to 0 the recomputed score is NaN and the score is kept as it is |
| ScoringEngine.ScoringEngine.GenerateFlags | packages/ai-comments/src/scoring/ScoringEngine.ts:60-84 | the pushed flags are those of the seven metrics, in breakdown order; a warning writes its value as `String` does, in exponent notation from 1e21 up and below 1e-6 |
| JsStrings.ExponentNotation | packages/ai-comments/src/scoring/ScoringEngine.ts:91-97 | a number is written in exponent notation exactly when its magnitude is at least 1e21 or non-zero and below 1e-6 |
| JsStrings.LargeNumberText | packages/ai-comments/src/scoring/ScoringEngine.ts:91-97 | a digit times ten to a power of at least 21 is written as that digit, `e+` and the power (`1e+21`) |
| JsStrings.SmallNumberText | packages/ai-comments/src/scoring/ScoringEngine.ts:91-97 | a significand in [1, 10) moved seven or more places left is written as its digits, `e-` and the places moved (`5e-7`) |
| JsStrings.IntegralNumberText | packages/ai-comments/src/scoring/ScoringEngine.ts:91-97 | a whole number below 1e21 in magnitude is written as its plain numeral |
| ScoringEngine.ScoringEngine.PushFlag | packages/ai-comments/src/scoring/ScoringEngine.ts:64-81 | one loop turn extends the flags of the first i metrics to the first i + 1 |
| ScoringEngine.ScoringEngine.GetSummary | packages/ai-comments/src/scoring/ScoringEngine.ts:123-160 | the summary is the tiered sentence naming the first weakest area |
| ScoringEngine.ValidatedWithinTolerance | packages/ai-comments/src/scoring/ScoringEngine.ts:45-49 | after validation, overall is within 10 of the recomputed score |
| ScoringEngine.ValidateIdempotent | packages/ai-comments/src/scoring/ScoringEngine.ts:41-55 | validating twice is validating once |
| ScoringEngine.ValidatePreservesValidity | packages/ai-comments/src/scoring/ScoringEngine.ts:41-55 | a schema-valid score stays schema-valid under non-negative weights |
| Context.Differing | packages/ai-comments/src/analyzer/context.ts:99-103 | exactly the scanned keys whose values differ are kept, each once when the keys are distinct |
| Context.ChangedKeysExactly | packages/ai-comments/src/analyzer/context.ts:90-106 | a key is reported iff both maps are present and the key's values differ (a key in one map only differs); no key is reported twice |
| Context.ChangedStyleProperties | packages/ai-comments/src/analyzer/context.ts:90-106 | the loop pushes exactly the changed keys, and nothing when either map is absent |
| Context.StringOr | packages/ai-comments/src/analyzer/context.ts:74-75 | `value \|\| fallback` keeps a non-empty value and otherwise gives the fallback |
| Context.BuildPromptContext | packages/ai-comments/src/analyzer/context.ts:43-85 | identity fields are copied; surroundingHTML defaults to '', designSystem to 'unknown' (also for ''), classes to [], a missing or zero viewport to 1920; the text/style flags mirror the type; styleChangeCount is the number of changed properties |
| Context.EstimateChangeComplexity | packages/ai-comments/src/analyzer/context.ts:111-143 | the step-by-step estimate equals the text or style complexity of the change |
| Context.ComplexityRange | packages/ai-comments/src/analyzer/context.ts:115-140 | complexity is in [0, 0.9], and at most 0.5 for a text change |
| Context.TextComplexitySymmetric | packages/ai-comments/src/analyzer/context.ts:116-119 | swapping the original and the modified text does not change the complexity |
| Context.TextComplexityOfDifference | packages/ai-comments/src/analyzer/context.ts:116-119 | two text changes whose lengths differ by the same absolute amount are equally complex, whatever the texts and the other fields |
| Context.StyleComplexityShape | packages/ai-comments/src/analyzer/context.ts:130-139 | style complexity is min(n/10, 0.7), plus 0.2 with a high-impact property, and zero exactly when nothing changed |
| Context.EstimateContextQuality | packages/ai-comments/src/analyzer/context.ts:148-168 | the step-by-step estimate equals 0.3 plus the four bonuses |
| Context.QualityRange | packages/ai-comments/src/analyzer/context.ts:148-168 | quality is in [0.3, 1], and is 1 exactly when all four bonuses apply |
| Context.QualityIgnoresDefaults | packages/ai-comments/src/analyzer/context.ts:74-77 | a bare context has quality 0.3 although the prompt context fills in the viewport and design-system defaults |
| Confidence.FactorWeight | packages/ai-comments/src/utils/confidence.ts:57-61 | the total weight is 0.95, or 1 exactly when the token ratio is given |
| Confidence.RoundHundredths | packages/ai-comments/src/utils/confidence.ts:63 | rounding to hundredths moves a value by at most half a hundredth |
| Confidence.CalculateConfidence | packages/ai-comments/src/utils/confidence.ts:35-64 | the accumulation equals round2((0.2c + 0.15(1-x) + 0.35l + 0.25s [+ 0.05(1-t)]) / (0.95 [+ 0.05])) |
| Confidence.RoundHundredthsInUnit | packages/ai-comments/src/utils/confidence.ts:63 | rounding keeps a value inside [0, 1] |
| Confidence.ConfidenceInUnit | packages/ai-comments/src/utils/confidence.ts:35-64 | factors in [0, 1] give a confidence in [0, 1] |
| Confidence.ConfidenceMonotone | packages/ai-comments/src/utils/confidence.ts:39-61 | confidence never falls when context, LLM confidence or schema validation rise, nor when complexity or token usage fall |
| Confidence.PerfectFactors | packages/ai-comments/src/utils/confidence.ts:35-64 | perfect factors give exactly 1, with or without the token factor |
| Confidence.CollectSection | packages/ai-comments/src/utils/confidence.ts:79-95 | the loop pushes every present confidence of a section in order; a null item throws |
| Confidence.ItemsErrorSticks | packages/ai-comments/src/utils/confidence.ts:80-82 | once an item throws, the section's collection ends in that error |
| Confidence.ExtractAverageConfidence | packages/ai-comments/src/utils/confidence.ts:69-109 | the method returns the mean of every present confidence in the five sections, or 0.7 when there are none; confidences that are not numbers, booleans or null make it NaN |
| Confidence.ItemsOfRecords | packages/ai-comments/src/utils/confidence.ts:80-82 | records that carry a confidence yield exactly those confidences, in order |
| Confidence.SumOfNums | packages/ai-comments/src/utils/confidence.ts:108 | the reduce over numbers is their sum |
| Confidence.SectionOfRecords | packages/ai-comments/src/utils/confidence.ts:79-95 | a section of records yields all their confidences |
| Confidence.CollectedOfValidated | packages/ai-comments/src/utils/confidence.ts:76-103 | on a validated result every confidence is collected, in section order |
| Confidence.AverageOfValidated | packages/ai-comments/src/utils/confidence.ts:69-109 | on a validated result the average is the mean of the confidences of all components, risks, suggestions, the style review and the PR score |
| Confidence.AverageOfValidInUnit | packages/ai-comments/src/utils/confidence.ts:69-109 | the average confidence of a valid result lies in [0, 1] |
| Confidence.GetConfidenceLabel | packages/ai-comments/src/utils/confidence.ts:114-120 | the label is the one at the confidence's rank in Very Low .. Very High |
| Confidence.ConfidenceLabelMonotone | packages/ai-comments/src/utils/confidence.ts:114-120 | the label never gets worse as confidence rises; Very Low iff below 0.4, Very High iff at least 0.9 |
| Confidence.ShouldWarnLowConfidence | packages/ai-comments/src/utils/confidence.ts:125-127 | a warning is due iff the confidence is below 0.6 |
| Confidence.WarnBelowModerate | packages/ai-comments/src/utils/confidence.ts:114-127 | a warning is due exactly when the label is below Moderate |
| Schemas.MetricsComplete | packages/ai-comments/src/prompts/schemas.ts:79-87 | the breakdown has exactly the seven listed metrics |
| Schemas.NumberIn | packages/ai-comments/src/prompts/schemas.ts:12 | a number accepted by min/max lies in the range |
| Schemas.EnumOf | packages/ai-comments/src/prompts/schemas.ts:9 | an accepted enum value is one of the allowed literals |
| Schemas.Strings | packages/ai-comments/src/prompts/schemas.ts:11 | a string array keeps every element |
| Schemas.DecodeComponentImpact | packages/ai-comments/src/prompts/schemas.ts:6-13 | an accepted component has impact high/medium/low and confidence in [0, 1]; every valid value is accepted, by `Schemas.ComponentImpactRoundTrip` |
| Schemas.DecodeRisk | packages/ai-comments/src/prompts/schemas.ts:20-37 | an accepted risk has one of the four severities, one of the seven categories, and confidence in [0, 1]; every valid value is accepted, by `Schemas.RiskRoundTrip` |
| Schemas.DecodeSuggestion | packages/ai-comments/src/prompts/schemas.ts:44-53 | an accepted suggestion has one of the four types, one of three priorities, and confidence in [0, 1]; every valid value is accepted, by `Schemas.SuggestionRoundTrip` |
| Schemas.DecodeStyleIssues | packages/ai-comments/src/prompts/schemas.ts:66-70 | an accepted issue array keeps every element |
| Schemas.DecodeStyleReview | packages/ai-comments/src/prompts/schemas.ts:60-72 | an accepted style review has its five sub-scores in [0, 100] and confidence in [0, 1]; every valid value is accepted, by `Schemas.StyleReviewRoundTrip` |
| Schemas.DecodeBreakdown | packages/ai-comments/src/prompts/schemas.ts:79-87 | an accepted breakdown has all seven metrics in [0, 100]; every valid value is accepted, by `Schemas.BreakdownRoundTrip` |
| Schemas.BreakdownOf | packages/ai-comments/src/prompts/schemas.ts:79-87 | the seven looked-up members are accepted only when each is a number in [0, 100] |
| Schemas.DecodeFlag | packages/ai-comments/src/prompts/schemas.ts:94-99 | an accepted flag is a warning, suggestion or info flag with confidence in [0, 1]; every valid value is accepted, by `Schemas.FlagRoundTrip` |
| Schemas.DecodeFlags | packages/ai-comments/src/prompts/schemas.ts:109 | an accepted flag array keeps every element, each valid; every valid value is accepted, by `Schemas.DecodeFlagsOfJson` |
| Schemas.DecodePRScore | packages/ai-comments/src/prompts/schemas.ts:106-113 | an accepted PR score has overall in [0, 100], a valid breakdown, valid flags and confidence in [0, 1]; every valid value is accepted, by `Schemas.PRScoreRoundTrip` |
| Schemas.DecodeComponents | packages/ai-comments/src/prompts/schemas.ts:121 | an accepted component array keeps every element, each valid; every valid value is accepted, by `Schemas.DecodeComponentsOfJson` |
| Schemas.DecodeRisks | packages/ai-comments/src/prompts/schemas.ts:122 | an accepted risk array keeps every element, each valid; every valid value is accepted, by `Schemas.DecodeRisksOfJson` |
| Schemas.DecodeSuggestions | packages/ai-comments/src/prompts/schemas.ts:123 | an accepted suggestion array keeps every element, each valid; every valid value is accepted, by `Schemas.DecodeSuggestionsOfJson` |
| Schemas.DecodeSections | packages/ai-comments/src/prompts/schemas.ts:120-126 | the five sections are accepted only when each is present and valid |
| Schemas.DecodeAnalysisResult | packages/ai-comments/src/prompts/schemas.ts:120-126 | an accepted result is an object with all five sections present and valid; every valid value is accepted, by `Schemas.AnalysisResultRoundTrip` |
| Schemas.SafeParseAnalysisResult | packages/ai-comments/src/prompts/schemas.ts:140-151 | success iff data is present iff error is absent iff the value validates; the data is valid |
| Schemas.StringsJson | packages/ai-comments/src/prompts/schemas.ts:11 | strings encode element by element |
| Schemas.ComponentsJson | packages/ai-comments/src/prompts/schemas.ts:121 | components encode element by element |
| Schemas.RisksJson | packages/ai-comments/src/prompts/schemas.ts:122 | risks encode element by element |
| Schemas.SuggestionsJson | packages/ai-comments/src/prompts/schemas.ts:123 | suggestions encode element by element |
| Schemas.AnalysisResultSections | packages/ai-comments/src/prompts/schemas.ts:120-126 | reading each section of an encoded result finds that section's encoding |
| Schemas.DecodeStyleIssuesOfJson | packages/ai-comments/src/prompts/schemas.ts:66-70 | encoded issues decode to themselves |
| Schemas.StyleReviewOfValues | packages/ai-comments/src/prompts/schemas.ts:60-72 | the style-review validator accepts the members of a valid review |
| Schemas.StyleReviewJsonRead | packages/ai-comments/src/prompts/schemas.ts:60-72 | each member of an encoded style review is found by its name |
| Schemas.StyleReviewRoundTrip | packages/ai-comments/src/prompts/schemas.ts:60-72 | an encoded valid style review decodes to itself |
| Schemas.BreakdownOfValues | packages/ai-comments/src/prompts/schemas.ts:79-87 | the breakdown validator accepts the seven numbers of a valid breakdown |
| Schemas.BreakdownJsonRead | packages/ai-comments/src/prompts/schemas.ts:79-87 | reading a metric's key in an encoded breakdown finds that metric's value |
| Schemas.BreakdownRoundTrip | packages/ai-comments/src/prompts/schemas.ts:79-87 | an encoded valid breakdown decodes to itself |
| Schemas.ComponentImpactTailReads | packages/ai-comments/src/prompts/schemas.ts:6-13 | the trailing members of an encoded component hold its impact, description, pages and confidence, and neither its name nor its path |
| Schemas.ComponentImpactJsonRuns | packages/ai-comments/src/prompts/schemas.ts:6-13 | a key of an encoded component is read from its trailing members, else from the optional file path, else from the name |
| Schemas.ComponentImpactJsonReads | packages/ai-comments/src/prompts/schemas.ts:6-13 | each member of an encoded component is found by its name |
| Schemas.ComponentImpactRoundTrip | packages/ai-comments/src/prompts/schemas.ts:6-13 | an encoded valid component decodes to itself |
| Schemas.RiskHeadReads | packages/ai-comments/src/prompts/schemas.ts:20-37 | the leading members of an encoded risk hold its id, severity, category, title and description, and neither breakpoints nor mitigation |
| Schemas.RiskJsonRuns | packages/ai-comments/src/prompts/schemas.ts:20-37 | a key of an encoded risk is read from its confidence member, else from the mitigation and breakpoints when present, else from its leading members |
| Schemas.RiskJsonReads | packages/ai-comments/src/prompts/schemas.ts:20-37 | each member of an encoded risk is found by its name |
| Schemas.RiskRoundTrip | packages/ai-comments/src/prompts/schemas.ts:20-37 | an encoded valid risk decodes to itself |
| Schemas.SuggestionHeadReads | packages/ai-comments/src/prompts/schemas.ts:44-53 | the leading members of an encoded suggestion hold its id, type, priority, title and description, and no code example |
| Schemas.SuggestionJsonRuns | packages/ai-comments/src/prompts/schemas.ts:44-53 | a key of an encoded suggestion is read from its rationale and confidence members, else from the optional code example, else from its leading members |
| Schemas.SuggestionJsonReads | packages/ai-comments/src/prompts/schemas.ts:44-53 | each member of an encoded suggestion is found by its name |
| Schemas.SuggestionRoundTrip | packages/ai-comments/src/prompts/schemas.ts:44-53 | an encoded valid suggestion decodes to itself |
| Schemas.FlagJsonReads | packages/ai-comments/src/prompts/schemas.ts:94-99 | each member of an encoded flag is found by its name |
| Schemas.FlagRoundTrip | packages/ai-comments/src/prompts/schemas.ts:94-99 | an encoded valid flag decodes to itself |
| Schemas.StringsOfJson | packages/ai-comments/src/prompts/schemas.ts:11 | an encoded string array decodes to itself |
| Schemas.DecodeComponentsOfJson | packages/ai-comments/src/prompts/schemas.ts:121 | an array of encoded valid components decodes to those components |
| Schemas.DecodeRisksOfJson | packages/ai-comments/src/prompts/schemas.ts:122 | an array of encoded valid risks decodes to those risks |
| Schemas.DecodeSuggestionsOfJson | packages/ai-comments/src/prompts/schemas.ts:123 | an array of encoded valid suggestions decodes to those suggestions |
| Schemas.DecodeFlagsOfJson | packages/ai-comments/src/prompts/schemas.ts:109 | an array of encoded valid flags decodes to those flags |
| Schemas.PRScoreJsonReads | packages/ai-comments/src/prompts/schemas.ts:106-113 | each member of an encoded PR score is found by its name |
| Schemas.PRScoreOfValues | packages/ai-comments/src/prompts/schemas.ts:106-113 | an object whose members are those of a valid PR score decodes to that score |
| Schemas.PRScoreRoundTrip | packages/ai-comments/src/prompts/schemas.ts:106-113 | an encoded valid PR score decodes to itself |
| Schemas.DecodeSectionsOfValues | packages/ai-comments/src/prompts/schemas.ts:120-126 | five sections that decode to a result's parts are accepted as that result |
| Schemas.AnalysisResultRoundTrip | packages/ai-comments/src/prompts/schemas.ts:120-126 | an encoded valid analysis result decodes to itself |
| Schemas.PromptRequiredSectionsEnforced | packages/ai-comments/src/prompts/schemas.ts:159 | a reply lacking any section the prompt schema requires is rejected |
| Schemas.MissingMetricRejected | packages/ai-comments/src/prompts/schemas.ts:239-249 | the validator rejects a breakdown lacking any metric, although the prompt schema's breakdown requires none |
| ChangeAnalyzer.SectionsOf | packages/ai-comments/src/analyzer/ChangeAnalyzer.ts:73-74 | a validated result's sections are the object the validator hands back |
| ChangeAnalyzer.MaxTokensOf | packages/ai-comments/src/analyzer/ChangeAnalyzer.ts:31 | `maxTokens \|\| 2000`: a configured non-zero budget is kept, an absent or zero one becomes 2000 |
| ChangeAnalyzer.TemperatureOf | packages/ai-comments/src/analyzer/ChangeAnalyzer.ts:32 | `temperature ?? 0.3` |
| ChangeAnalyzer.ArrayOr | packages/ai-comments/src/analyzer/ChangeAnalyzer.ts:237-241 | an array section survives the fallback only if it is an array, otherwise it becomes [] |
| ChangeAnalyzer.TruthyOr | packages/ai-comments/src/analyzer/ChangeAnalyzer.ts:242-243 | a truthy section is kept, otherwise the baseline is used |
| ChangeAnalyzer.FallbackSections | packages/ai-comments/src/analyzer/ChangeAnalyzer.ts:235-245 | the fallback throws exactly on a null reply; otherwise its three list sections are arrays |
| ChangeAnalyzer.TierOf | packages/ai-comments/src/analyzer/ChangeAnalyzer.ts:66-83 | schema validation is 1 iff the reply parses and validates (data: the validated result), 0.5 iff it parses, fails validation and is not null (data: the fallback), 0 iff parsing throws or the reply is null (data: the default result) |
| ChangeAnalyzer.NumericBreakdown | packages/ai-comments/src/analyzer/ChangeAnalyzer.ts:86 | the seven breakdown members read as numbers, or none when one of them is NaN |
| ChangeAnalyzer.RawValidate | packages/ai-comments/src/analyzer/ChangeAnalyzer.ts:86-87 | validating a raw PR score throws a TypeError exactly when its breakdown is missing or null, under any weights, all-zero ones included |
| ChangeAnalyzer.RawValidateLookups | packages/ai-comments/src/analyzer/ChangeAnalyzer.ts:86-87 | after validation only overall can differ; it is the recomputed score iff that replaces the reported one |
| ChangeAnalyzer.RawValidatedWithinTolerance | packages/ai-comments/src/analyzer/ChangeAnalyzer.ts:86 | after validation a numeric overall is within 10 of the recomputed score |
| ChangeAnalyzer.PRScoreJsonReads | packages/ai-comments/src/analyzer/ChangeAnalyzer.ts:86 | an encoded score reads back its overall and breakdown, and its member names are distinct |
| ChangeAnalyzer.NumericBreakdownOfJson | packages/ai-comments/src/analyzer/ChangeAnalyzer.ts:86 | an encoded breakdown reads back as the same seven numbers |
| ChangeAnalyzer.RawValidateTyped | packages/ai-comments/src/analyzer/ChangeAnalyzer.ts:86 | on an encoded valid score, raw validation agrees with the engine's typed validation |
| ChangeAnalyzer.SectionsUpdate | packages/ai-comments/src/analyzer/ChangeAnalyzer.ts:87 | `{ ...analysisData, prScore }` replaces the PR score and keeps the other sections |
| ChangeAnalyzer.DefaultResultConsistent | packages/ai-comments/src/analyzer/ChangeAnalyzer.ts:250-296 | the default result is schema-valid, scores 70 under any weights, agrees with the approval gate, and its confidences average 0.5 |
| ChangeAnalyzer.DefaultScoreKept | packages/ai-comments/src/analyzer/ChangeAnalyzer.ts:279-296 | validation leaves the default PR score unchanged |
| ChangeAnalyzer.Analysis | packages/ai-comments/src/analyzer/ChangeAnalyzer.ts:38-113 | a rejected provider call rejects the analysis; a success carries the change id, the stamp, the provider's name, the token count and the raw content |
| ChangeAnalyzer.RatioInUnit | packages/ai-comments/src/analyzer/ChangeAnalyzer.ts:96 | a token usage within the budget gives a ratio in [0, 1] |
| ChangeAnalyzer.ValidReplyAnalysis | packages/ai-comments/src/analyzer/ChangeAnalyzer.ts:66-113 | a valid reply is analysed in tier 1: its sections, the engine-validated score, confidence from the mean self-reported confidence with schema 1, in [0, 1] when usage is within budget |
| ChangeAnalyzer.UnusableReplyAnalysis | packages/ai-comments/src/analyzer/ChangeAnalyzer.ts:80-113 | an unparseable or null reply gives the default sections (one parse-error risk, no components or suggestions) and confidence with mean 0.5 and schema 0 |
| ChangeAnalyzer.DefaultAverage | packages/ai-comments/src/analyzer/ChangeAnalyzer.ts:250-296 | the default result's confidences average 0.5 |
| ChangeAnalyzer.PartialReplyAnalysis | packages/ai-comments/src/analyzer/ChangeAnalyzer.ts:75-97 | a parsed invalid reply is analysed in tier 0.5 on the fallback sections; it rejects with a TypeError when the fallback's score cannot be validated |
| ChangeAnalyzer.WindowSize | packages/ai-comments/src/analyzer/ChangeAnalyzer.ts:133 | `concurrency \|\| 3` |
| ChangeAnalyzer.BatchOutcomes | packages/ai-comments/src/analyzer/ChangeAnalyzer.ts:138 | every change of a batch has its own analysis outcome |
| ChangeAnalyzer.Successes | packages/ai-comments/src/analyzer/ChangeAnalyzer.ts:175 | the completed counter never exceeds the number of changes seen |
| ChangeAnalyzer.SuccessesMonotone | packages/ai-comments/src/analyzer/ChangeAnalyzer.ts:175 | the completed counter never decreases |
| ChangeAnalyzer.SequentialEvents | packages/ai-comments/src/analyzer/ChangeAnalyzer.ts:164-203 | each change contributes exactly two events |
| ChangeAnalyzer.FirstFailure | packages/ai-comments/src/analyzer/ChangeAnalyzer.ts:140 | the first failing change fails, and every change before it succeeds |
| ChangeAnalyzer.ParallelResults | packages/ai-comments/src/analyzer/ChangeAnalyzer.ts:142-160 | one result event per succeeded change |
| ChangeAnalyzer.ProgressOf | packages/ai-comments/src/analyzer/ChangeAnalyzer.ts:148 | an event's progress is its completed count divided by the batch size |
| ChangeAnalyzer.ParallelResultsStep | packages/ai-comments/src/analyzer/ChangeAnalyzer.ts:142-151 | each succeeded change appends its result event, with counter m + 1 of n |
| ChangeAnalyzer.WindowEnd | packages/ai-comments/src/analyzer/ChangeAnalyzer.ts:136-137 | a window starting before the end is non-empty and ends within the batch |
| ChangeAnalyzer.ResultsOfAppend | packages/ai-comments/src/analyzer/ChangeAnalyzer.ts:223-227 | collecting results distributes over concatenated event lists |
| ChangeAnalyzer.SequentialEventsAt | packages/ai-comments/src/analyzer/ChangeAnalyzer.ts:164-203 | the events of the j-th change sit at positions 2j and 2j + 1 |
| ChangeAnalyzer.SequentialFrame | packages/ai-comments/src/analyzer/ChangeAnalyzer.ts:123-210 | sequential mode starts with start(n, 0), has two events per change, ends with complete(n, successes) and never throws |
| ChangeAnalyzer.SequentialItem | packages/ai-comments/src/analyzer/ChangeAnalyzer.ts:164-202 | the j-th change yields progress with the successes so far, then its result with the counter plus one, or an error with the rejection's message and the counter unchanged |
| ChangeAnalyzer.SequentialCounters | packages/ai-comments/src/analyzer/ChangeAnalyzer.ts:129-210 | every sequential event reports the successes so far, so the counters never decrease and never exceed the total |
| ChangeAnalyzer.ResultsOfItem | packages/ai-comments/src/analyzer/ChangeAnalyzer.ts:224 | a change's two events carry its result exactly when it succeeded |
| ChangeAnalyzer.ResultsOfSingle | packages/ai-comments/src/analyzer/ChangeAnalyzer.ts:224 | only result events carry a result |
| ChangeAnalyzer.SequentialResults | packages/ai-comments/src/analyzer/ChangeAnalyzer.ts:216-230 | in sequential mode the collected results are the successful analyses, in input order |
| ChangeAnalyzer.ParallelResultsPayloads | packages/ai-comments/src/analyzer/ChangeAnalyzer.ts:142-151 | the result events of a parallel run carry the analyses in input order |
| ChangeAnalyzer.ParallelFromNext | packages/ai-comments/src/analyzer/ChangeAnalyzer.ts:136-161 | a window whose changes all succeed yields their results and hands on to the next window |
| ChangeAnalyzer.ParallelStep | packages/ai-comments/src/analyzer/ChangeAnalyzer.ts:136-161 | one window either throws its first error after the earlier results, or hands on to the next window |
| ChangeAnalyzer.ParallelAllOk | packages/ai-comments/src/analyzer/ChangeAnalyzer.ts:131-210 | with every analysis succeeding, parallel mode yields start, one result per change in order, then complete |
| ChangeAnalyzer.FirstFailureIs | packages/ai-comments/src/analyzer/ChangeAnalyzer.ts:140 | a failing change preceded only by successes is the first failure |
| ChangeAnalyzer.GridMultiple | packages/ai-comments/src/analyzer/ChangeAnalyzer.ts:136 | the windows from 0 in steps of k start at every multiple of k |
| ChangeAnalyzer.FailingWindow | packages/ai-comments/src/analyzer/ChangeAnalyzer.ts:137-140 | the window holding the first failure ends the stream with that failure's error |
| ChangeAnalyzer.ParallelFailure | packages/ai-comments/src/analyzer/ChangeAnalyzer.ts:131-161 | with a failure, parallel mode yields start and the results of every window before the failing one, then throws; no complete event follows |
| ChangeAnalyzer.ParallelFailureFrom | packages/ai-comments/src/analyzer/ChangeAnalyzer.ts:136-161 | when every change before window `g` succeeds, the stream from any earlier window start is the stream from `g` |
| ChangeAnalyzer.AllResultsOf | packages/ai-comments/src/analyzer/ChangeAnalyzer.ts:216-230 | analyzeAll returns the successful results in input order, or throws the first failure's error in parallel mode |
| ChangeAnalyzer.SequentialAllResults | packages/ai-comments/src/analyzer/ChangeAnalyzer.ts:216-230 | in sequential mode analyzeAll never throws and returns the successes |
| ChangeAnalyzer.ParallelAllResults | packages/ai-comments/src/analyzer/ChangeAnalyzer.ts:216-230 | in parallel mode without failures analyzeAll returns every result in order |
| ChangeAnalyzer.FramedResults | packages/ai-comments/src/analyzer/ChangeAnalyzer.ts:224 | start and complete carry no result |
| ChangeAnalyzer.YieldItem | packages/ai-comments/src/analyzer/ChangeAnalyzer.ts:164-202 | one turn of the sequential loop appends the change's two events and updates the counter |
| ChangeAnalyzer.YieldWindow | packages/ai-comments/src/analyzer/ChangeAnalyzer.ts:142-160 | one settled window appends one result event per change and advances the counter |
| ChangeAnalyzer.ChangeAnalyzer.constructor | packages/ai-comments/src/analyzer/ChangeAnalyzer.ts:27-33 | the analyzer keeps the provider, merges the weights, and defaults maxTokens to 2000 and temperature to 0.3 |
| ChangeAnalyzer.ChangeAnalyzer.Analyze | packages/ai-comments/src/analyzer/ChangeAnalyzer.ts:38-113 | the method computes the analysis of the change |
| ChangeAnalyzer.ChangeAnalyzer.ReadReply | packages/ai-comments/src/analyzer/ChangeAnalyzer.ts:66-83 | the try/catch assigns the schema-validation tier and the data that the reply earns |
| ChangeAnalyzer.ChangeAnalyzer.AnalyzeStream | packages/ai-comments/src/analyzer/ChangeAnalyzer.ts:118-211 | the generator's events and throw are the stream of the batch's outcomes |
| ChangeAnalyzer.ChangeAnalyzer.AnalyzeSequential | packages/ai-comments/src/analyzer/ChangeAnalyzer.ts:162-210 | the sequential loop yields the sequential stream |
| ChangeAnalyzer.ChangeAnalyzer.AnalyzeAt | packages/ai-comments/src/analyzer/ChangeAnalyzer.ts:174 | analysing the j-th change gives the j-th outcome |
| ChangeAnalyzer.ChangeAnalyzer.AnalyzeWindow | packages/ai-comments/src/analyzer/ChangeAnalyzer.ts:137-140 | a window settles to the outcomes of its changes |
| ChangeAnalyzer.ChangeAnalyzer.AnalyzeParallel | packages/ai-comments/src/analyzer/ChangeAnalyzer.ts:131-161 | the windowed loop yields the parallel stream |
| ChangeAnalyzer.ChangeAnalyzer.AnalyzeAll | packages/ai-comments/src/analyzer/ChangeAnalyzer.ts:216-230 | the loop gathers the stream's result payloads, or rethrows |
| Streaming.CreateSSEMessage | packages/ai-comments/src/utils/streaming.ts:6-9 | a message is `data: `, the event's JSON text and a blank line |
| Streaming.LineEnd | packages/ai-comments/src/utils/streaming.ts:15 | the end of a line is the first line terminator (LF, CR, U+2028, U+2029) or the end of the message |
| Streaming.LineEndAt | packages/ai-comments/src/utils/streaming.ts:15 | the line end is the first terminator, and only that |
| Streaming.MatchDataFrom | packages/ai-comments/src/utils/streaming.ts:15 | a captured group is non-empty and lies on one line |
| Streaming.MatchDataFound | packages/ai-comments/src/utils/streaming.ts:15 | `/^data: (.+)$/m` matches iff some line starts with `data: ` and one more character; the capture is the rest of the first such line |
| Streaming.ParseSSEMessage | packages/ai-comments/src/utils/streaming.ts:14-23 | no match gives null; a match gives exactly what JSON.parse makes of the capture, null when it throws, and a non-null result always comes from a match |
| Streaming.MessageData | packages/ai-comments/src/utils/streaming.ts:6-19 | a one-line text comes back out of its message unchanged |
| Streaming.SSERoundTrip | packages/ai-comments/src/utils/streaming.ts:6-23 | an event whose JSON text has no line terminator parses back to what JSON.parse makes of that text |
| Streaming.SeparatorCutsData | packages/ai-comments/src/utils/streaming.ts:15 | a U+2028 inside an event's JSON text cuts the captured data short |
| Streaming.EscapeSeparators | packages/ai-comments/src/utils/streaming.ts:7 | escaping U+2028 and U+2029 leaves no line terminator in a JSON text without raw CR/LF |
| Streaming.CreateSSEMessageEscaped | packages/ai-comments/src/utils/streaming.ts:6-9 | the message carries the escaped JSON text |
| Streaming.EscapedSSERoundTrip | packages/ai-comments/src/utils/streaming.ts:6-23 | with the separators escaped, every event whose JSON text has no raw CR/LF round-trips |
| Streaming.SSEStream | packages/ai-comments/src/utils/streaming.ts:28-34 | one message per event, in order |
| Streaming.ScanFrom | packages/ai-comments/src/utils/streaming.ts:59-88 | a scan that stops does so at a closing bracket inside the buffer |
| Streaming.ScanFromAppend | packages/ai-comments/src/utils/streaming.ts:59-88 | the scan reads no further than the bracket it stops at |
| Streaming.JsonEndAppend | packages/ai-comments/src/utils/streaming.ts:45-47 | appending text never moves a found end, and can only complete the value with a bracket of the new text |
| Streaming.StringRun | packages/ai-comments/src/utils/streaming.ts:67-87 | inside a string literal, brackets do not change the depth |
| Streaming.EscapedChar | packages/ai-comments/src/utils/streaming.ts:62-69 | inside a string literal a backslash hides the next character, an escaped quote included |
| Streaming.QuotedBrackets | packages/ai-comments/src/utils/streaming.ts:59-88 | an object whose string value holds brackets and escaped quotes ends at its own closing brace |
| Streaming.EscapedTextScan | packages/ai-comments/src/utils/streaming.ts:62-75 | escaped text inside a string literal is skipped as a whole |
| Streaming.JSONStreamBuffer.constructor | packages/ai-comments/src/utils/streaming.ts:40 | the buffer starts empty |
| Streaming.JSONStreamBuffer.Append | packages/ai-comments/src/utils/streaming.ts:45-47 | the chunk is appended to the buffer |
| Streaming.JSONStreamBuffer.TryParse | packages/ai-comments/src/utils/streaming.ts:52-103 | with no complete value the buffer is kept and failure reported; otherwise the value's text is cut off the front whether or not it parses, and success is whether it parses |
| Streaming.JSONStreamBuffer.GetBuffer | packages/ai-comments/src/utils/streaming.ts:108-110 | returns the buffer |
| Streaming.JSONStreamBuffer.Clear | packages/ai-comments/src/utils/streaming.ts:115-117 | empties the buffer |
| Streaming.CutIsComplete | packages/ai-comments/src/utils/streaming.ts:94-95 | the cut text is itself a complete value ending at its last character, and the cut text followed by the remainder is the old buffer |
| VoiceIntent.ProcessFailure | packages/ai-comments/src/voice/VoiceIntentProcessor.ts:71-79 | a provider failure is not understood, has no changes, and reports the error's message |
| VoiceIntent.ColorNamesShape | packages/ai-comments/src/voice/VoiceIntentProcessor.ts:214-239 | every colour name is a short lower-case word |
| VoiceIntent.ColorValuesShape | packages/ai-comments/src/voice/VoiceIntentProcessor.ts:214-239 | every mapped value is `#` and six hex digits |
| VoiceIntent.ColorNamesDistinct | packages/ai-comments/src/voice/VoiceIntentProcessor.ts:214-239 | no colour name appears twice |
| VoiceIntent.NormalizeColorValue | packages/ai-comments/src/voice/VoiceIntentProcessor.ts:207-247 | only color, backgroundColor and borderColor are mapped; the result is the value or a hex colour; this is the corrected lookup of the colour map's own names, not `colorMap[lowerValue]` as written |
| VoiceIntent.ColorNameMapped | packages/ai-comments/src/voice/VoiceIntentProcessor.ts:241-243 | a known colour name is mapped whatever its case and surrounding white space |
| VoiceIntent.HexNotAName | packages/ai-comments/src/voice/VoiceIntentProcessor.ts:214-242 | a hex colour is never a colour name |
| VoiceIntent.NormalizeColorIdempotent | packages/ai-comments/src/voice/VoiceIntentProcessor.ts:207-247 | normalising a normalised value changes nothing |
| VoiceIntent.NormalizeColorValueAsWritten | packages/ai-comments/src/voice/VoiceIntentProcessor.ts:241-243 | a string answer of the lookup as written agrees with the own-key lookup |
| VoiceIntent.PrototypeNameCounterexample | packages/ai-comments/src/voice/VoiceIntentProcessor.ts:241-243 | `constructor` (any case, padded) returns an inherited member instead of a string, where the own-key lookup keeps the value |
| VoiceIntent.ConstructorNotAName | packages/ai-comments/src/voice/VoiceIntentProcessor.ts:214-239 | `constructor` is not a colour name |
| VoiceIntent.Entries | packages/ai-comments/src/voice/VoiceIntentProcessor.ts:182 | the entries of an array are one per element |
| VoiceIntent.StylesOfClean | packages/ai-comments/src/voice/VoiceIntentProcessor.ts:182-199 | the gathered styles hold only whitelisted keys with values other than '', 'null' and 'undefined' |
| VoiceIntent.SuppliesSnoc | packages/ai-comments/src/voice/VoiceIntentProcessor.ts:182-199 | a key is supplied by a run of entries iff by its prefix or by its last entry |
| VoiceIntent.StylesOfPresent | packages/ai-comments/src/voice/VoiceIntentProcessor.ts:182-199 | a key is present in the result iff it is whitelisted and some entry supplies a kept value for it |
| VoiceIntent.StylesOfValue | packages/ai-comments/src/voice/VoiceIntentProcessor.ts:189-198 | a present key holds the colour-normalised string form of a kept value supplied for it |
| VoiceIntent.AssignClean | packages/ai-comments/src/voice/VoiceIntentProcessor.ts:198 | assigning a whitelisted key with a kept value keeps the styles clean |
| VoiceIntent.NormalizeStyles | packages/ai-comments/src/voice/VoiceIntentProcessor.ts:166-202 | a TypeError is thrown exactly when some whitelisted entry's value has no string form; otherwise the result is the normalised styles, and they are clean; colour values go through the corrected own-name lookup |
| VoiceIntent.GatherStyles | packages/ai-comments/src/voice/VoiceIntentProcessor.ts:182-199 | the loop stops with a TypeError exactly when some entry throws, and otherwise gathers the styles of all entries |
| VoiceIntent.AssignStyle | packages/ai-comments/src/voice/VoiceIntentProcessor.ts:183-198 | one entry throws exactly when its key is whitelisted and its value has no string form; otherwise it takes one gathering step |
| VoiceIntent.NormalizedChange | packages/ai-comments/src/voice/VoiceIntentProcessor.ts:124-161 | a kept change has content, an object source with that type, and the element id or the default |
| VoiceIntent.NormalizedChangeKept | packages/ai-comments/src/voice/VoiceIntentProcessor.ts:124-161 | a change is kept iff it is an object that is a style change with at least one normalised style or a text change with non-empty text |
| VoiceIntent.StyleChangeClean | packages/ai-comments/src/voice/VoiceIntentProcessor.ts:143-145 | a kept style change carries only clean styles |
| VoiceIntent.NormalizeChange | packages/ai-comments/src/voice/VoiceIntentProcessor.ts:124-161 | the TypeError of `normalizeStyles` passes through exactly for an object style change whose styles throw; otherwise the field-by-field build equals the normalised change |
| VoiceIntent.KeptChanges | packages/ai-comments/src/voice/VoiceIntentProcessor.ts:99-106 | at most one change per item, each with content |
| VoiceIntent.KeptChangesAppend | packages/ai-comments/src/voice/VoiceIntentProcessor.ts:100-105 | each item survives or is dropped on its own, in order |
| VoiceIntent.KeptChangesSnoc | packages/ai-comments/src/voice/VoiceIntentProcessor.ts:100-105 | one more item appends its normalised change, if any |
| VoiceIntent.Reply | packages/ai-comments/src/voice/VoiceIntentProcessor.ts:90-96 | a parsed reply carries the given changes and no error; `understood: true` is kept and a falsy one reads as false; a non-empty string interpretation is kept and a falsy one becomes "Unable to interpret the command"; a clarification is kept only when truthy; suggestions are present iff they are an array |
| VoiceIntent.ParsedResponse | packages/ai-comments/src/voice/VoiceIntentProcessor.ts:85-119 | the parse failure comes exactly when the reply does not parse, is null, has a truthy interpretation with no string form, or holds a change whose styles throw; otherwise no error, at most one change per item, each with content |
| VoiceIntent.ParseResponse | packages/ai-comments/src/voice/VoiceIntentProcessor.ts:85-119 | the method computes the parsed response |
| VoiceIntent.NormalizeChanges | packages/ai-comments/src/voice/VoiceIntentProcessor.ts:99-106 | the loop stops with a TypeError exactly when some item throws, and otherwise pushes exactly the kept changes, in order |
| VoiceIntent.PushChange | packages/ai-comments/src/voice/VoiceIntentProcessor.ts:101-104 | one item throws exactly when its styles do, and then the run of items up to it throws; otherwise the kept changes grow by that item's normalised change, if any |
| VoiceIntent.ChangesThrowExtends | packages/ai-comments/src/voice/VoiceIntentProcessor.ts:100-105 | once an item throws, every longer run of items throws |
| VoiceIntent.ReplyChanges | packages/ai-comments/src/voice/VoiceIntentProcessor.ts:90-105 | filling in the changes after building the reply is building it with them |
| VoiceIntent.BlankMeaning | packages/ai-comments/src/voice/VoiceIntentProcessor.ts:35 | a command is blank iff every character is white space |
| VoiceIntent.VoiceIntentProcessor.constructor | packages/ai-comments/src/voice/VoiceIntentProcessor.ts:22-26 | `maxTokens \|\| 1000` and `temperature ?? 0.3` |
| VoiceIntent.VoiceIntentProcessor.Process | packages/ai-comments/src/voice/VoiceIntentProcessor.ts:31-80 | a blank command is answered without calling the provider; otherwise the provider is asked with the system prompt and the voice prompt, and the answer is its parsed reply (the parse failure when reading it throws) or the failure; colour values go through the corrected own-name lookup |
| VoicePrompts.BuildVoicePrompt | packages/ai-comments/src/voice/prompts.ts:98-168 | for a request free of template syntax, the prompt is exactly the expected one: the quoted transcript, then the no-element sentence or the element's tag, its text cut to 100 characters and (when known) its computed styles, then the page URL and title ('unknown' when absent) and the output schema |
| VoicePrompts.FillTemplate | packages/ai-comments/src/voice/prompts.ts:110-167 | the steps of the function, on any template laid out as the template is, produce the expected prompt's text |
| VoicePrompts.TemplateLiterals | packages/ai-comments/src/voice/prompts.ts:64 | the no-element sentence and the schema have the shape the replacements rely on (no template syntax, the sentence begins with 'N') |
| VoicePrompts.ShowElement | packages/ai-comments/src/voice/prompts.ts:116-123 | with an element selected, its markers and the sentence go and its tag and text fill their slots, then its styles are shown or cut |
| VoicePrompts.ShowStyles | packages/ai-comments/src/voice/prompts.ts:124-136 | each computed style (or '') fills its slot and the first remaining '{{/if}}' is cut |
| VoicePrompts.DropStyles | packages/ai-comments/src/voice/prompts.ts:137-144 | without computed styles, the text from the styles' '{{#if}}' through the next '{{/if}}' is cut |
| VoicePrompts.ShowNoElement | packages/ai-comments/src/voice/prompts.ts:145-157 | without an element, only the '{{else}}' branch's lines are kept between the request and the page |
| VoicePrompts.ShownText | packages/ai-comments/src/voice/prompts.ts:122 | the shown text is the first min(length, 100) characters of the element's text, '' when absent |
| VoicePrompts.FillTranscript | packages/ai-comments/src/voice/prompts.ts:113 | replacing '{{transcript}}' puts the transcript in its slot and changes nothing else |
| VoicePrompts.FillIfElement | packages/ai-comments/src/voice/prompts.ts:117 | replacing the element's '{{#if}}' changes only that slot |
| VoicePrompts.FillTagName | packages/ai-comments/src/voice/prompts.ts:121 | replacing '{{selectedElement.tagName}}' changes only that slot |
| VoicePrompts.FillTextContent | packages/ai-comments/src/voice/prompts.ts:122 | replacing '{{selectedElement.textContent}}' changes only that slot |
| VoicePrompts.FillIfStyles | packages/ai-comments/src/voice/prompts.ts:125 | replacing the styles' '{{#if}}' changes only that slot |
| VoicePrompts.FillFontFamily | packages/ai-comments/src/voice/prompts.ts:126 | replacing the font-family placeholder changes only that slot |
| VoicePrompts.FillFontWeight | packages/ai-comments/src/voice/prompts.ts:127 | replacing the font-weight placeholder changes only that slot |
| VoicePrompts.FillFontSize | packages/ai-comments/src/voice/prompts.ts:128 | replacing the font-size placeholder changes only that slot |
| VoicePrompts.FillColor | packages/ai-comments/src/voice/prompts.ts:129 | replacing the colour placeholder changes only that slot |
| VoicePrompts.FillBackgroundColor | packages/ai-comments/src/voice/prompts.ts:130 | replacing the background-colour placeholder changes only that slot |
| VoicePrompts.FillTextAlign | packages/ai-comments/src/voice/prompts.ts:131 | replacing the alignment placeholder changes only that slot |
| VoicePrompts.FillEndIfStyles | packages/ai-comments/src/voice/prompts.ts:120 | the first '{{/if}}' replaced is the one closing the styles block |
| VoicePrompts.FillElseBranch | packages/ai-comments/src/voice/prompts.ts:118 | replacing '{{else}}' changes only that slot |
| VoicePrompts.DropSentence | packages/ai-comments/src/voice/prompts.ts:119 | deleting the no-element sentence deletes the template's copy, not text in the transcript |
| VoicePrompts.FillEndIf | packages/ai-comments/src/voice/prompts.ts:133-136 | cutting the first '{{/if}}' after the styles are shown removes the outer one |
| VoicePrompts.StylesClosed | packages/ai-comments/src/voice/prompts.ts:133-136 | after the styles are in place, '{{/if}}' is found and cutting it reaches the page stage |
| VoicePrompts.CutStyles | packages/ai-comments/src/voice/prompts.ts:139-143 | both indices are found and the cut leaves the request, the element's lines and the page lines |
| VoicePrompts.KeepElse | packages/ai-comments/src/voice/prompts.ts:148-155 | the '{{else}}' and following '{{/if}}' are found; the text between them is the sentence's lines and what follows is the page block |
| VoicePrompts.ElseKept | packages/ai-comments/src/voice/prompts.ts:148-155 | the three kept parts join into the page stage of the no-element prompt |
| VoicePrompts.FillPageUrl | packages/ai-comments/src/voice/prompts.ts:160 | replacing '{{pageContext.url}}' changes only that slot |
| VoicePrompts.FillPageTitle | packages/ai-comments/src/voice/prompts.ts:161 | replacing '{{pageContext.title}}' changes only that slot |
| VoicePrompts.CommentsKeep | packages/ai-comments/src/voice/prompts.ts:164 | comment deletion leaves a prefix without '<' untouched |
| VoicePrompts.CommentDropped | packages/ai-comments/src/voice/prompts.ts:164 | a '<!-- x -->' comment, x non-empty and without '>', is deleted |
| VoicePrompts.MarkerGone | packages/ai-comments/src/voice/prompts.ts:164 | the '<!-- else -->' marker is deleted |
| VoicePrompts.PlaceholdersKeep | packages/ai-comments/src/voice/prompts.ts:165 | placeholder deletion leaves a prefix without '{' untouched |
| VoicePrompts.OutputSchemaKept | packages/ai-comments/src/voice/prompts.ts:165 | the schema's JSON braces are not mistaken for placeholders |
| VoicePrompts.SchemaClean | packages/ai-comments/src/voice/prompts.ts:164-165 | the schema passes both deletions unchanged |
| VoicePrompts.FinishStyled | packages/ai-comments/src/voice/prompts.ts:164-165 | the clean-up of the filled template with styles shown yields the expected prompt |
| VoicePrompts.FinishUnstyled | packages/ai-comments/src/voice/prompts.ts:164-165 | the clean-up of the template without its styles block yields the expected prompt |
| VoicePrompts.UnstyledFinished | packages/ai-comments/src/voice/prompts.ts:164-165 | without styles, the element's lines and the page's, cleaned up, are the expected prompt |
| VoicePrompts.FinishNoElement | packages/ai-comments/src/voice/prompts.ts:164-165 | the clean-up of the no-element text yields the expected prompt |
| Stores.FindFirst | extension/src/sidepanel/stores/RootStore.ts:259-261 | the result is -1 iff no element has the key, else the first position that has it |
| Stores.RemoveFirstMeaning | extension/src/sidepanel/stores/RootStore.ts:272-277 | a missing key leaves the list as it was; otherwise exactly one element, the first with the key, is removed, and with distinct keys none with that key remains |
| Stores.UpsertChangeAsWritten | extension/src/sidepanel/stores/RootStore.ts:257-271 | as written, `addChange` throws exactly when a change for the same element and kind is already present, since the existing entry's `original` node would get a second parent; when it succeeds it appends, as the corrected upsert does |
| Stores.SecondEditThrows | extension/src/sidepanel/stores/RootStore.ts:263-267 | a second edit of one element and kind throws as written, where the corrected upsert keeps the second edit with the first one's original side |
| Stores.UpsertChangeMeaning | extension/src/sidepanel/stores/RootStore.ts:257-271 | the corrected upsert (see Findings): a change for an element and kind already present replaces that entry in place, keeping its original side as the source evidently intends; otherwise it is appended; other changes are untouched and at most one change per element and kind remains |
| Stores.PutCommentMeaning | extension/src/sidepanel/stores/RootStore.ts:336-343 | the new comment is last, comments for other changes are kept, and at most one comment per change remains |
| Stores.MergeMeaning | extension/src/sidepanel/stores/RootStore.ts:307 | an update without fields changes nothing, and merging the same update twice is merging it once |
| Stores.Merge | extension/src/sidepanel/stores/RootStore.ts:307 | the merged PR keeps its id: an update carries no `id`, since mobx-state-tree refuses to change an identifier in place |
| Stores.UpdatePullRequestsMeaning | extension/src/sidepanel/stores/RootStore.ts:304-309 | only the first PR with the id is merged with the update; every other PR, the length and the order of ids are unchanged; an unknown id changes nothing |
| Stores.OpenOnly | extension/src/sidepanel/stores/RootStore.ts:228-230 | a PR is kept iff it is in the list and open |
| Stores.OpenOnlyCounts | extension/src/sidepanel/stores/RootStore.ts:228-230 | every open PR is kept as many times as it occurs, and every other PR is dropped |
| Stores.OpenOnlyAppend | extension/src/sidepanel/stores/RootStore.ts:228-230 | the filter keeps order: the open PRs of a + b are those of a followed by those of b |
| Stores.OverallSumWithin | extension/src/sidepanel/stores/RootStore.ts:242 | a sum of n scores within [lo, hi] lies within [n * lo, n * hi] |
| Stores.SumStep | extension/src/sidepanel/stores/RootStore.ts:242 | one more score within [lo, hi] keeps the running sum within the bounds for n + 1 |
| Stores.AverageScoreWithin | extension/src/sidepanel/stores/RootStore.ts:240-244 | when every overall score lies between two integers around 0, so does the average |
| Stores.PercentAverage | extension/src/sidepanel/stores/RootStore.ts:240-244 | overall scores on the 0-100 scale average to a score on that scale |
| Stores.AverageOfEqualScores | extension/src/sidepanel/stores/RootStore.ts:240-244 | comments that all score v average to Math.round(v) |
| Stores.SelectRepoMeaning | extension/src/sidepanel/stores/RootStore.ts:287-297 | no id (or 0) clears the current repository; an unknown id changes nothing; a known id selects the first repository with it and its default branch |
| Stores.RootStore.constructor | extension/src/sidepanel/stores/RootStore.ts:208-220 | the store starts empty and valid |
| Stores.RootStore.ChangesCount | extension/src/sidepanel/stores/RootStore.ts:222-224 | the number of changes held |
| Stores.RootStore.HasChanges | extension/src/sidepanel/stores/RootStore.ts:225-227 | true iff the store holds a change |
| Stores.RootStore.OpenPullRequests | extension/src/sidepanel/stores/RootStore.ts:228-230 | exactly the held PRs whose status is open, each as often as it is held, in the order they are held |
| Stores.RootStore.AveragePRScore | extension/src/sidepanel/stores/RootStore.ts:240-244 | 0 without comments, and within 0-100 when every overall score is |
| Stores.RootStore.AddChangeAsWritten | extension/src/sidepanel/stores/RootStore.ts:257-271 | as written: a change for an element and kind already present throws the reparenting error and leaves the store as it was; any other change is appended; at most one change per element and kind is kept |
| Stores.RootStore.AddChange | extension/src/sidepanel/stores/RootStore.ts:257-271 | corrected: the changes become the upsert of the new change and nothing else changes; at most one change per element and kind is kept |
| Stores.RootStore.RemoveChange | extension/src/sidepanel/stores/RootStore.ts:272-277 | the changes lose the first change with that id and nothing else changes |
| Stores.RootStore.SetRepositories | extension/src/sidepanel/stores/RootStore.ts:281-283 | the repositories are replaced and nothing else changes |
| Stores.RootStore.SetCurrentRepo | extension/src/sidepanel/stores/RootStore.ts:287-297 | the store moves to the selection that the three cases describe |
| Stores.RootStore.AddPullRequest | extension/src/sidepanel/stores/RootStore.ts:301-303 | the new PR goes first and nothing else changes |
| Stores.RootStore.UpdatePullRequest | extension/src/sidepanel/stores/RootStore.ts:304-309 | the first PR with that id takes the update and nothing else changes |
| Stores.RootStore.AddAIComment | extension/src/sidepanel/stores/RootStore.ts:336-343 | the comments become the put of the new one; at most one comment per change is kept |
| Stores.RootStore.RemoveAIComment | extension/src/sidepanel/stores/RootStore.ts:344-349 | the comments lose the first comment with that id and nothing else changes |
| SharedUtils.MatchRgb | extension/src/shared/utils.ts:122 | a match captures three nonempty digit runs |
| SharedUtils.MatchRgbOf | extension/src/shared/utils.ts:122 | 'rgb(r, g, b)' with three digit runs matches, capturing exactly those runs |
| SharedUtils.RgbToHex | extension/src/shared/utils.ts:121-130 | text that does not match is returned unchanged; a match gives text starting with '#' |
| SharedUtils.RgbToHexBytes | extension/src/shared/utils.ts:125-129 | components below 256 become '#' and two upper-case hex digits per component, whose values are the components |
| SharedUtils.HexToRgb | extension/src/shared/utils.ts:135-144 | an accepted colour has three components below 256 |
| SharedUtils.HexToRgbAccepts | extension/src/shared/utils.ts:136 | exactly six hex digits, with or without one leading '#', are accepted; nothing else is |
| SharedUtils.HexToRgbIgnoresCase | extension/src/shared/utils.ts:136 | the letters of a hex colour may be in either case |
| SharedUtils.HexColorRead | extension/src/shared/utils.ts:139-141 | '#RRGGBB' written from three bytes reads back as those bytes |
| SharedUtils.RgbHexRoundTrip | extension/src/shared/utils.ts:121-144 | a computed colour 'rgb(r, g, b)' with byte components comes back from hexToRgb(rgbToHex(...)) unchanged |
| SharedUtils.ParseFontSize | extension/src/shared/utils.ts:157-159 | never 0; the parsed pixel value when it is not 0, otherwise 16, and 16 when the text is not a number |
| SharedUtils.ParseSpacing | extension/src/shared/utils.ts:164-166 | the parsed pixel value, or 0 when the text is not a number |
| SharedUtils.PixelsRead | extension/src/shared/utils.ts:158 | 'Npx' parses back as N |
| SharedUtils.PixelSizesRead | extension/src/shared/utils.ts:157-166 | whole pixel sizes read back exactly, except that a font size of 0 becomes 16 |
| SharedUtils.UnitsOf | extension/src/shared/utils.ts:175-178 | the minutes, hours and days, each floored from the last, are the elapsed time over the unit's length, floored once |
| SharedUtils.RelativeTimeBuckets | extension/src/shared/utils.ts:180-193 | under a minute counts seconds, under an hour minutes, under a day hours, under a week days, otherwise a calendar date |
| SharedUtils.RelativeTimePlural | extension/src/shared/utils.ts:185-187 | hours and days take the plural ending from 2 on and not for 1 |
| SharedUtils.FontWeightLabelKnown | extension/src/shared/utils.ts:214-228 | the weights 100, 200, ..., 900 get their labels |
| SharedUtils.FontWeightLabelOther | extension/src/shared/utils.ts:228 | any other weight, and text that is not a number, is labelled 'Regular' |
| SharedUtils.FirstFamily | extension/src/shared/utils.ts:245-249 | the position of the first family whose name occurs, every earlier one not occurring |
| SharedUtils.KnownFamily | extension/src/shared/utils.ts:245-249 | None iff no family name occurs; otherwise the label of the first that does |
| SharedUtils.FirstSegment | extension/src/shared/utils.ts:251 | the prefix of the input up to its first comma, or the whole input when it has none |
| SharedUtils.FirstSegmentOf | extension/src/shared/utils.ts:251 | a comma-free `name` followed by a comma and anything gives `name` |
| SharedUtils.WithoutQuotes | extension/src/shared/utils.ts:251 | every quote of either kind goes and every other character stays, as many times as in the input |
| SharedUtils.WithoutQuotesAppend | extension/src/shared/utils.ts:251 | quotes are removed piece by piece, so the remaining characters keep their order |
| SharedUtils.WithoutQuotesKeeps | extension/src/shared/utils.ts:251 | a quote-free string is left as it is |
| SharedUtils.FirstFamilyName | extension/src/shared/utils.ts:251 | the first list entry without quotes and trimmed: no comma or quote, no white space at either end, only characters of the input |
| SharedUtils.FirstFamilyNameOf | extension/src/shared/utils.ts:251 | a list whose first entry is a bare, trimmed name gives that name, whatever follows |
| SharedUtils.FontFamilyKnown | extension/src/shared/utils.ts:244-248 | a list naming a known family, in any case, gets the label of the first family found |
| SharedUtils.FontFamilyFallback | extension/src/shared/utils.ts:251 | a list naming no known family is labelled with its first entry |

## Left out

- The LLM providers and their SDKs, network I/O, `console.error`, `uuid` and `Date.now`: the provider's `complete`, the id and the clock are parameters of the operations that use them.
- `JSON.parse` and `JSON.stringify`: function-valued parameters, so the SSE round trips hold for whatever the two functions do.
- The system prompts, `PromptManager` and its Handlebars rendering: the analyzer's rendered prompts are opaque strings. Only the voice user prompt is built, from its template.
- The real concurrency of `Promise.all` in parallel analysis. Each window is an all-or-nothing join, and which rejection message wins when several items of one window fail is not modelled.
- IEEE-754 rounding, NaN and infinities: numbers are exact reals, so, for example, the normalised weights sum to exactly 1.
- Json.ToNumber: reads numbers as themselves, booleans as 1 or 0 and `null` as 0, and every string, array and object as NaN. JavaScript also converts numeric strings (`"5"` to 5) and arrays of at most one number (`[]` to 0). A raw PR score or confidence written that way reads as NaN in the model.
- The mobx-state-tree machinery (snapshots, references, `types.*` validation, reactions) and chrome messaging: `applyStyleToElement` and `applyTextToElement` send a message and change nothing in the store.
- The store's plain setters and clears (`setSelectedElement`, `clearSelectedElement`, `clearChanges`, `setBranches`, `setCurrentBranch`, `setUser`, `setCurrentWebsiteUrl`, `clearAIComments`) and the views `isAuthenticated`, `aiCommentsCount` and `hasAIComments`: each assigns or reads one field and has no logic to model.
- `getOpacityFromRgba`, `debounce` and the DOM helpers of the shared utilities: browser timers and the DOM.
- SharedUtils.FormatRelativeTime: the text of the calendar date that `toLocaleDateString` gives for times a week or more ago is left to the locale. The model returns the timestamp in its place.
- VoicePrompts.BuildVoicePrompt: its result is stated for plain requests only. A transcript, tag, text, style, URL or title holding `{`, `<` or `$`, or a transcript quoting the no-element sentence, can be misplaced by the first-occurrence replacements, the `$` patterns of `String.prototype.replace` or the clean-up regular expressions. The element's text is cut as `ShownText` cuts it, in code points rather than UTF-16 code units.
- SharedUtils.RgbToHex: components above 255 give more than two hex digits. Only components up to 255 are stated digit by digit.
- Stores.RootStore.AveragePRScore: stated through the range lemmas and `Stores.AverageOfEqualScores` rather than as a closed form of the mean.
- Confidence.ExtractAverageConfidence: the sum of the collected confidences is read as NaN once one of them is a string, an array or an object. The source's `reduce((a, b) => a + b, 0)` concatenates such a value instead, and the division then converts the text back to a number: a single confidence `"0.9"` averages to 0.9 in the source.
- Confidence.SumOf: the same gap as `ExtractAverageConfidence`, whose sum it is. String concatenation under `+` is not modelled.
- Context.EstimateChangeComplexity: text lengths are counted in Unicode code points, where JavaScript's `.length` counts UTF-16 code units. A character outside the Basic Multilingual Plane, such as an emoji, counts 2 in the source and 1 here.
- Context.EstimateContextQuality: `surroundingHTML.length > 100` is compared in code points, not UTF-16 code units, with the same gap.
- VoicePrompts.ShownText: the cut keeps the first 100 code points, where `substring(0, 100)` keeps 100 UTF-16 code units. Text of 100 emoji is cut to 50 in the source and kept whole here.
- VoiceIntent.NormalizeColorValue: `toLowerCase` is modelled on ASCII letters only. Full Unicode case mapping also turns U+212A (Kelvin sign) into `k` and U+0130 into `i` followed by a combining dot, so `"blac\u212A"` is mapped to `#000000` by the source and left as it is here.
- ScoringEngine.ScoringEngine.ValidateAndRecalculate: a total weight of 0 is read as NaN, which keeps the reported overall. That is what the source does when every weight is 0. Weights of mixed sign that sum to 0 give an infinite score in the source instead, which replaces the overall; the model keeps it.
- ChangeAnalyzer.RecalculatedOverall: the same reading of a total weight of 0 as NaN, with the same gap for weights of mixed sign.
- ChangeAnalyzer.WindowSize: `concurrency` is a whole number here. The source's `concurrency?: number` may also be negative, which makes the window loop run forever, or fractional, which gives windows of uneven size.
- ChangeAnalyzer.ChangeAnalyzer.AnalyzeStream: the `onProgress` callback of the options is not modelled. A callback that throws would change the stream, as the next three lines say.
- ChangeAnalyzer.ChangeAnalyzer.AnalyzeSequential: a throwing `onProgress` runs inside the per-change `try`, so in the source that change gets an error event after its result event. The model's two events per change assume the callback returns.
- ChangeAnalyzer.ChangeAnalyzer.AnalyzeParallel: a throwing `onProgress` escapes the generator in the source and ends the stream. The model does not have that exit.
- ChangeAnalyzer.ChangeAnalyzer.AnalyzeAll: in parallel mode a throwing `onProgress` makes the source's `analyzeAll` reject. The model does not have that exit.
- Weights.MergeWeights: a custom weight is either absent or a number. `Partial<ScoringWeights>` also allows a key that is present with the value `undefined`, which `{ ...DEFAULT_WEIGHTS, ...custom }` copies over its default. The weight sum, the normalised weights and the overall score then become NaN, where the model keeps the default.
- JsStrings.NumberText: a non-integral number is written with its exact decimal digits, at most twenty after the point and twenty-one significant ones below 1e-6. `Number::toString` writes the shortest digits that identify the IEEE-754 double, at most seventeen significant, and exact reals are not doubles in the first place.
- Json.JsString: it is the string form of a value on which `String` returns. Where `String` throws, on an object with an own `toString` member or an array holding one, every caller tests `Json.Stringable` first and takes the throwing path.
- Records.Keys: member names are listed in insertion order. JavaScript's `Object.keys` lists integer-like names (`"0"`, `"1"`, …) first, in ascending order. The source writes no such name itself, but a style map or a model reply holding one is listed in a different order than here.

## Findings

| source | as written | input that shows it | evidently intended | confidence | as-written member | corrected member |
|---|---|---|---|---|---|---|
| packages/ai-comments/src/utils/streaming.ts:15 | `createSSEMessage` writes `JSON.stringify(event)` as is, and `parseSSEMessage` reads the data with `/^data: (.+)$/m`, whose `.` and `$` stop at U+2028 and U+2029, which `JSON.stringify` does not escape | an event holding a string with U+2028, such as a summary pasted from a web page: only the text before the separator reaches `JSON.parse` | every message that `createSSEMessage` writes parses back to its event | not executed | Streaming.SeparatorCutsData | Streaming.EscapedSSERoundTrip |
| packages/ai-comments/src/voice/VoiceIntentProcessor.ts:241-243 | `colorMap[lowerValue]` also finds the properties every object inherits | a `color` value of `"Constructor"`: the lookup finds the inherited `constructor` function and returns it as the style value | only the listed colour names are mapped, and every other value is returned as it is | not executed | VoiceIntent.PrototypeNameCounterexample | VoiceIntent.NormalizeColorIdempotent |
| extension/src/sidepanel/stores/RootStore.ts:263-267 | the replace path of `addChange` hands `ChangeModel.create` the existing entry's `original`, a mobx-state-tree node that already has a parent, and the library refuses a second parent | a second `addChange` for an element and kind already present: it throws before assigning, so the first edit stays and the second is lost | the existing entry is replaced by the new change, keeping the entry's original side | not executed | Stores.UpsertChangeAsWritten | Stores.UpsertChangeMeaning |
