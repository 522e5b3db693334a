/**
 * The result contract of an analysis: the typed records the validator yields, their validity
 * predicates (ranges and enumerations), the validator itself as a decoder from parsed JSON
 * (unknown members are stripped, optional members may be absent), an encoder back to JSON,
 * and the `required` lists of the JSON schema that is shown to the model in the prompt.
 */
module Schemas {
  import opened Wrappers
  import opened Json
  import opened Records
  import opened JsStrings

  // ---------------------------------------------------------------------------
  // The seven PR-score metrics

  datatype Metric =
    | CodeConsistency | ReuseScore | AiDetectionRisk | CascadeRisk
    | ResponsiveScore | SemanticScore | IntentAlignment

  /** The metrics in declaration order, which is also the order of the weight table. */
  const Metrics: seq<Metric> :=
    [CodeConsistency, ReuseScore, AiDetectionRisk, CascadeRisk, ResponsiveScore, SemanticScore, IntentAlignment]

  lemma {:induction false} MetricsComplete(m: Metric)
    ensures m in Metrics
  {
  }

  /** The property name of a metric in the breakdown object. */
  function MetricKey(m: Metric): string {
    match m
    case CodeConsistency => "codeConsistency"
    case ReuseScore => "reuseScore"
    case AiDetectionRisk => "aiDetectionRisk"
    case CascadeRisk => "cascadeRisk"
    case ResponsiveScore => "responsiveScore"
    case SemanticScore => "semanticScore"
    case IntentAlignment => "intentAlignment"
  }

  const MetricKeys: seq<string> := seq(7, i requires 0 <= i < 7 => MetricKey(Metrics[i]))

  // ---------------------------------------------------------------------------
  // Enumerations

  const ImpactLevels: seq<string> := ["high", "medium", "low"]
  const Severities: seq<string> := ["critical", "high", "medium", "low"]
  const RiskCategories: seq<string> :=
    ["cascade", "responsive", "accessibility", "performance", "semantic", "compatibility", "design-consistency"]
  const SuggestionTypes: seq<string> := ["improvement", "alternative", "best-practice", "optimization"]
  const Priorities: seq<string> := ["high", "medium", "low"]
  const FlagTypes: seq<string> := ["warning", "suggestion", "info"]

  // ---------------------------------------------------------------------------
  // Records

  datatype ComponentImpact = ComponentImpact(
    componentName: string,
    filePath: Option<string>,
    impactLevel: string,
    description: string,
    otherPagesAffected: seq<string>,
    confidence: real)

  datatype Risk = Risk(
    id: string,
    severity: string,
    category: string,
    title: string,
    description: string,
    affectedBreakpoints: Option<seq<string>>,
    mitigation: Option<string>,
    confidence: real)

  datatype Suggestion = Suggestion(
    id: string,
    kind: string,
    priority: string,
    title: string,
    description: string,
    codeExample: Option<string>,
    rationale: string,
    confidence: real)

  datatype StyleIssue = StyleIssue(property: string, issue: string, suggestion: string)

  datatype StyleReview = StyleReview(
    overallConsistency: real,
    designSystemAlignment: real,
    colorConsistency: real,
    spacingConsistency: real,
    typographyConsistency: real,
    issues: seq<StyleIssue>,
    confidence: real)

  datatype Breakdown = Breakdown(
    codeConsistency: real,
    reuseScore: real,
    aiDetectionRisk: real,
    cascadeRisk: real,
    responsiveScore: real,
    semanticScore: real,
    intentAlignment: real)
  {
    /** `breakdown[key]` for a metric key. */
    function Get(m: Metric): real {
      match m
      case CodeConsistency => codeConsistency
      case ReuseScore => reuseScore
      case AiDetectionRisk => aiDetectionRisk
      case CascadeRisk => cascadeRisk
      case ResponsiveScore => responsiveScore
      case SemanticScore => semanticScore
      case IntentAlignment => intentAlignment
    }
  }

  datatype Flag = Flag(kind: string, message: string, details: Option<string>, confidence: real)

  datatype PRScore = PRScore(
    overall: real,
    breakdown: Breakdown,
    flags: seq<Flag>,
    summary: string,
    wouldApprove: bool,
    confidence: real)

  datatype AnalysisResultData = AnalysisResultData(
    affectedComponents: seq<ComponentImpact>,
    risks: seq<Risk>,
    suggestions: seq<Suggestion>,
    styleConsistency: StyleReview,
    prScore: PRScore)

  // ---------------------------------------------------------------------------
  // Validity: the ranges and enumerations of the schema

  predicate Unit(x: real) { 0.0 <= x <= 1.0 }
  predicate Percent(x: real) { 0.0 <= x <= 100.0 }

  predicate ValidComponentImpact(c: ComponentImpact) {
    c.impactLevel in ImpactLevels && Unit(c.confidence)
  }

  predicate ValidRisk(r: Risk) {
    r.severity in Severities && r.category in RiskCategories && Unit(r.confidence)
  }

  predicate ValidSuggestion(s: Suggestion) {
    s.kind in SuggestionTypes && s.priority in Priorities && Unit(s.confidence)
  }

  predicate ValidStyleReview(s: StyleReview) {
    Percent(s.overallConsistency) && Percent(s.designSystemAlignment) && Percent(s.colorConsistency)
    && Percent(s.spacingConsistency) && Percent(s.typographyConsistency) && Unit(s.confidence)
  }

  predicate ValidBreakdown(b: Breakdown) {
    forall m: Metric :: Percent(b.Get(m))
  }

  predicate ValidFlag(f: Flag) {
    f.kind in FlagTypes && Unit(f.confidence)
  }

  predicate ValidPRScore(p: PRScore) {
    Percent(p.overall) && ValidBreakdown(p.breakdown)
    && (forall i :: 0 <= i < |p.flags| ==> ValidFlag(p.flags[i]))
    && Unit(p.confidence)
  }

  predicate ValidAnalysisResult(d: AnalysisResultData) {
    (forall i :: 0 <= i < |d.affectedComponents| ==> ValidComponentImpact(d.affectedComponents[i]))
    && (forall i :: 0 <= i < |d.risks| ==> ValidRisk(d.risks[i]))
    && (forall i :: 0 <= i < |d.suggestions| ==> ValidSuggestion(d.suggestions[i]))
    && ValidStyleReview(d.styleConsistency)
    && ValidPRScore(d.prScore)
  }

  // ---------------------------------------------------------------------------
  // The validator as a decoder. A failure carries the path of the first offending member.

  type Path = seq<string>

  function StringOf(v: Option<Json>): Option<string> {
    if v.Some? && v.value.Str? then Some(v.value.s) else None
  }

  /** A member that may be absent: `Some(None)` when absent, `None` when present with the wrong type. */
  function OptionalStringOf(v: Option<Json>): Option<Option<string>> {
    if v.None? then Some(None) else if v.value.Str? then Some(Some(v.value.s)) else None
  }

  function NumberIn(v: Option<Json>, lo: real, hi: real): (r: Option<real>)
    ensures r.Some? ==> lo <= r.value <= hi
  {
    if v.Some? && v.value.Num? && lo <= v.value.n <= hi then Some(v.value.n) else None
  }

  function EnumOf(v: Option<Json>, allowed: seq<string>): (r: Option<string>)
    ensures r.Some? ==> r.value in allowed
  {
    if v.Some? && v.value.Str? && v.value.s in allowed then Some(v.value.s) else None
  }

  function Strings(items: seq<Json>): (r: Option<seq<string>>)
    ensures r.Some? ==> |r.value| == |items|
  {
    if |items| == 0 then Some([])
    else
      var rest := Strings(items[1..]);
      if items[0].Str? && rest.Some? then Some([items[0].s] + rest.value) else None
  }

  function StringArrayOf(v: Option<Json>): Option<seq<string>> {
    if v.Some? && v.value.Arr? then Strings(v.value.items) else None
  }

  function OptionalStringArrayOf(v: Option<Json>): Option<Option<seq<string>>> {
    if v.None? then Some(None)
    else if v.value.Arr? && Strings(v.value.items).Some? then Some(Strings(v.value.items))
    else None
  }

  function DecodeComponentImpact(v: Json, path: Path): (r: Result<ComponentImpact, Path>)
    ensures r.Ok? ==> ValidComponentImpact(r.value)
  {
    var name := StringOf(Get(v, "componentName"));
    var file := OptionalStringOf(Get(v, "filePath"));
    var level := EnumOf(Get(v, "impactLevel"), ImpactLevels);
    var desc := StringOf(Get(v, "description"));
    var pages := StringArrayOf(Get(v, "otherPagesAffected"));
    var conf := NumberIn(Get(v, "confidence"), 0.0, 1.0);
    if !v.Obj? then Err(path)
    else if name.None? then Err(path + ["componentName"])
    else if file.None? then Err(path + ["filePath"])
    else if level.None? then Err(path + ["impactLevel"])
    else if desc.None? then Err(path + ["description"])
    else if pages.None? then Err(path + ["otherPagesAffected"])
    else if conf.None? then Err(path + ["confidence"])
    else Ok(ComponentImpact(name.value, file.value, level.value, desc.value, pages.value, conf.value))
  }

  function DecodeRisk(v: Json, path: Path): (r: Result<Risk, Path>)
    ensures r.Ok? ==> ValidRisk(r.value)
  {
    var id := StringOf(Get(v, "id"));
    var severity := EnumOf(Get(v, "severity"), Severities);
    var category := EnumOf(Get(v, "category"), RiskCategories);
    var title := StringOf(Get(v, "title"));
    var desc := StringOf(Get(v, "description"));
    var breakpoints := OptionalStringArrayOf(Get(v, "affectedBreakpoints"));
    var mitigation := OptionalStringOf(Get(v, "mitigation"));
    var conf := NumberIn(Get(v, "confidence"), 0.0, 1.0);
    if !v.Obj? then Err(path)
    else if id.None? then Err(path + ["id"])
    else if severity.None? then Err(path + ["severity"])
    else if category.None? then Err(path + ["category"])
    else if title.None? then Err(path + ["title"])
    else if desc.None? then Err(path + ["description"])
    else if breakpoints.None? then Err(path + ["affectedBreakpoints"])
    else if mitigation.None? then Err(path + ["mitigation"])
    else if conf.None? then Err(path + ["confidence"])
    else Ok(Risk(id.value, severity.value, category.value, title.value, desc.value,
                 breakpoints.value, mitigation.value, conf.value))
  }

  function DecodeSuggestion(v: Json, path: Path): (r: Result<Suggestion, Path>)
    ensures r.Ok? ==> ValidSuggestion(r.value)
  {
    var id := StringOf(Get(v, "id"));
    var kind := EnumOf(Get(v, "type"), SuggestionTypes);
    var priority := EnumOf(Get(v, "priority"), Priorities);
    var title := StringOf(Get(v, "title"));
    var desc := StringOf(Get(v, "description"));
    var example := OptionalStringOf(Get(v, "codeExample"));
    var rationale := StringOf(Get(v, "rationale"));
    var conf := NumberIn(Get(v, "confidence"), 0.0, 1.0);
    if !v.Obj? then Err(path)
    else if id.None? then Err(path + ["id"])
    else if kind.None? then Err(path + ["type"])
    else if priority.None? then Err(path + ["priority"])
    else if title.None? then Err(path + ["title"])
    else if desc.None? then Err(path + ["description"])
    else if example.None? then Err(path + ["codeExample"])
    else if rationale.None? then Err(path + ["rationale"])
    else if conf.None? then Err(path + ["confidence"])
    else Ok(Suggestion(id.value, kind.value, priority.value, title.value, desc.value,
                       example.value, rationale.value, conf.value))
  }

  function DecodeStyleIssue(v: Json, path: Path): Result<StyleIssue, Path> {
    var property := StringOf(Get(v, "property"));
    var issue := StringOf(Get(v, "issue"));
    var suggestion := StringOf(Get(v, "suggestion"));
    if !v.Obj? then Err(path)
    else if property.None? then Err(path + ["property"])
    else if issue.None? then Err(path + ["issue"])
    else if suggestion.None? then Err(path + ["suggestion"])
    else Ok(StyleIssue(property.value, issue.value, suggestion.value))
  }

  /** An array member whose elements are decoded one by one; the first failure wins. */
  function DecodeStyleIssues(items: seq<Json>, path: Path, i: nat): (r: Result<seq<StyleIssue>, Path>)
    requires i <= |items|
    ensures r.Ok? ==> |r.value| == |items| - i
    decreases |items| - i
  {
    if i == |items| then Ok([])
    else
      var head := DecodeStyleIssue(items[i], path + [IntText(i)]);
      var tail := DecodeStyleIssues(items, path, i + 1);
      if head.Err? then Err(head.error)
      else if tail.Err? then Err(tail.error)
      else Ok([head.value] + tail.value)
  }

  function DecodeStyleReview(v: Json, path: Path): (r: Result<StyleReview, Path>)
    ensures r.Ok? ==> ValidStyleReview(r.value)
  {
    var overall := NumberIn(Get(v, "overallConsistency"), 0.0, 100.0);
    var design := NumberIn(Get(v, "designSystemAlignment"), 0.0, 100.0);
    var color := NumberIn(Get(v, "colorConsistency"), 0.0, 100.0);
    var spacing := NumberIn(Get(v, "spacingConsistency"), 0.0, 100.0);
    var typography := NumberIn(Get(v, "typographyConsistency"), 0.0, 100.0);
    var issuesValue := Get(v, "issues");
    var conf := NumberIn(Get(v, "confidence"), 0.0, 1.0);
    if !v.Obj? then Err(path)
    else if overall.None? then Err(path + ["overallConsistency"])
    else if design.None? then Err(path + ["designSystemAlignment"])
    else if color.None? then Err(path + ["colorConsistency"])
    else if spacing.None? then Err(path + ["spacingConsistency"])
    else if typography.None? then Err(path + ["typographyConsistency"])
    else if issuesValue.None? || !issuesValue.value.Arr? then Err(path + ["issues"])
    else
      var issues := DecodeStyleIssues(issuesValue.value.items, path + ["issues"], 0);
      if issues.Err? then Err(issues.error)
      else if conf.None? then Err(path + ["confidence"])
      else Ok(StyleReview(overall.value, design.value, color.value, spacing.value, typography.value,
                          issues.value, conf.value))
  }

  function DecodeBreakdown(v: Json, path: Path): (r: Result<Breakdown, Path>)
    ensures r.Ok? ==> ValidBreakdown(r.value)
  {
    if !v.Obj? then Err(path)
    else BreakdownOf(Get(v, "codeConsistency"), Get(v, "reuseScore"), Get(v, "aiDetectionRisk"),
                     Get(v, "cascadeRisk"), Get(v, "responsiveScore"), Get(v, "semanticScore"),
                     Get(v, "intentAlignment"), path)
  }

  /** The breakdown validator once its seven members have been looked up. */
  function BreakdownOf(cc: Option<Json>, rs: Option<Json>, ai: Option<Json>, ca: Option<Json>,
                       re: Option<Json>, se: Option<Json>, ia: Option<Json>, path: Path): (r: Result<Breakdown, Path>)
    ensures r.Ok? ==> ValidBreakdown(r.value)
  {
    var cc, rs, ai, ca := NumberIn(cc, 0.0, 100.0), NumberIn(rs, 0.0, 100.0), NumberIn(ai, 0.0, 100.0), NumberIn(ca, 0.0, 100.0);
    var re, se, ia := NumberIn(re, 0.0, 100.0), NumberIn(se, 0.0, 100.0), NumberIn(ia, 0.0, 100.0);
    if cc.None? then Err(path + ["codeConsistency"])
    else if rs.None? then Err(path + ["reuseScore"])
    else if ai.None? then Err(path + ["aiDetectionRisk"])
    else if ca.None? then Err(path + ["cascadeRisk"])
    else if re.None? then Err(path + ["responsiveScore"])
    else if se.None? then Err(path + ["semanticScore"])
    else if ia.None? then Err(path + ["intentAlignment"])
    else Ok(Breakdown(cc.value, rs.value, ai.value, ca.value, re.value, se.value, ia.value))
  }

  function DecodeFlag(v: Json, path: Path): (r: Result<Flag, Path>)
    ensures r.Ok? ==> ValidFlag(r.value)
  {
    var kind := EnumOf(Get(v, "type"), FlagTypes);
    var message := StringOf(Get(v, "message"));
    var details := OptionalStringOf(Get(v, "details"));
    var conf := NumberIn(Get(v, "confidence"), 0.0, 1.0);
    if !v.Obj? then Err(path)
    else if kind.None? then Err(path + ["type"])
    else if message.None? then Err(path + ["message"])
    else if details.None? then Err(path + ["details"])
    else if conf.None? then Err(path + ["confidence"])
    else Ok(Flag(kind.value, message.value, details.value, conf.value))
  }

  function DecodeFlags(items: seq<Json>, path: Path, i: nat): (r: Result<seq<Flag>, Path>)
    requires i <= |items|
    ensures r.Ok? ==> |r.value| == |items| - i && forall k :: 0 <= k < |r.value| ==> ValidFlag(r.value[k])
    decreases |items| - i
  {
    if i == |items| then Ok([])
    else
      var head := DecodeFlag(items[i], path + [IntText(i)]);
      var tail := DecodeFlags(items, path, i + 1);
      if head.Err? then Err(head.error)
      else if tail.Err? then Err(tail.error)
      else Ok([head.value] + tail.value)
  }

  function DecodePRScore(v: Json, path: Path): (r: Result<PRScore, Path>)
    ensures r.Ok? ==> ValidPRScore(r.value)
  {
    var overall := NumberIn(Get(v, "overall"), 0.0, 100.0);
    var breakdownValue := Get(v, "breakdown");
    var flagsValue := Get(v, "flags");
    var summary := StringOf(Get(v, "summary"));
    var approve := Get(v, "wouldApprove");
    var conf := NumberIn(Get(v, "confidence"), 0.0, 1.0);
    if !v.Obj? then Err(path)
    else if overall.None? then Err(path + ["overall"])
    else if breakdownValue.None? then Err(path + ["breakdown"])
    else
      var breakdown := DecodeBreakdown(breakdownValue.value, path + ["breakdown"]);
      if breakdown.Err? then Err(breakdown.error)
      else if flagsValue.None? || !flagsValue.value.Arr? then Err(path + ["flags"])
      else
        var flags := DecodeFlags(flagsValue.value.items, path + ["flags"], 0);
        if flags.Err? then Err(flags.error)
        else if summary.None? then Err(path + ["summary"])
        else if approve.None? || !approve.value.Bool? then Err(path + ["wouldApprove"])
        else if conf.None? then Err(path + ["confidence"])
        else Ok(PRScore(overall.value, breakdown.value, flags.value, summary.value, approve.value.b, conf.value))
  }

  function DecodeComponents(items: seq<Json>, path: Path, i: nat): (r: Result<seq<ComponentImpact>, Path>)
    requires i <= |items|
    ensures r.Ok? ==> (|r.value| == |items| - i
      && forall k :: 0 <= k < |r.value| ==> ValidComponentImpact(r.value[k]))
    decreases |items| - i
  {
    if i == |items| then Ok([])
    else
      var head := DecodeComponentImpact(items[i], path + [IntText(i)]);
      var tail := DecodeComponents(items, path, i + 1);
      if head.Err? then Err(head.error)
      else if tail.Err? then Err(tail.error)
      else Ok([head.value] + tail.value)
  }

  function DecodeRisks(items: seq<Json>, path: Path, i: nat): (r: Result<seq<Risk>, Path>)
    requires i <= |items|
    ensures r.Ok? ==> |r.value| == |items| - i && forall k :: 0 <= k < |r.value| ==> ValidRisk(r.value[k])
    decreases |items| - i
  {
    if i == |items| then Ok([])
    else
      var head := DecodeRisk(items[i], path + [IntText(i)]);
      var tail := DecodeRisks(items, path, i + 1);
      if head.Err? then Err(head.error)
      else if tail.Err? then Err(tail.error)
      else Ok([head.value] + tail.value)
  }

  function DecodeSuggestions(items: seq<Json>, path: Path, i: nat): (r: Result<seq<Suggestion>, Path>)
    requires i <= |items|
    ensures r.Ok? ==> (|r.value| == |items| - i
      && forall k :: 0 <= k < |r.value| ==> ValidSuggestion(r.value[k]))
    decreases |items| - i
  {
    if i == |items| then Ok([])
    else
      var head := DecodeSuggestion(items[i], path + [IntText(i)]);
      var tail := DecodeSuggestions(items, path, i + 1);
      if head.Err? then Err(head.error)
      else if tail.Err? then Err(tail.error)
      else Ok([head.value] + tail.value)
  }

  /** The analysis-result validator: every section present and valid, unknown members stripped. */
  function DecodeAnalysisResult(v: Json): (r: Result<AnalysisResultData, Path>)
    ensures r.Ok? ==> ValidAnalysisResult(r.value)
    ensures r.Ok? ==> v.Obj?
  {
    if !v.Obj? then Err([])
    else DecodeSections(Get(v, "affectedComponents"), Get(v, "risks"), Get(v, "suggestions"),
                        Get(v, "styleConsistency"), Get(v, "prScore"))
  }

  /** The analysis-result validator once its five sections have been looked up, checked in schema order. */
  function DecodeSections(components: Option<Json>, risks: Option<Json>, suggestions: Option<Json>,
                          style: Option<Json>, score: Option<Json>): (r: Result<AnalysisResultData, Path>)
    ensures r.Ok? ==> ValidAnalysisResult(r.value)
  {
    if components.None? || !components.value.Arr? then Err(["affectedComponents"])
    else
      var cs := DecodeComponents(components.value.items, ["affectedComponents"], 0);
      if cs.Err? then Err(cs.error)
      else if risks.None? || !risks.value.Arr? then Err(["risks"])
      else
        var rs := DecodeRisks(risks.value.items, ["risks"], 0);
        if rs.Err? then Err(rs.error)
        else if suggestions.None? || !suggestions.value.Arr? then Err(["suggestions"])
        else
          var ss := DecodeSuggestions(suggestions.value.items, ["suggestions"], 0);
          if ss.Err? then Err(ss.error)
          else if style.None? then Err(["styleConsistency"])
          else
            var sr := DecodeStyleReview(style.value, ["styleConsistency"]);
            if sr.Err? then Err(sr.error)
            else if score.None? then Err(["prScore"])
            else
              var ps := DecodePRScore(score.value, ["prScore"]);
              if ps.Err? then Err(ps.error)
              else Ok(AnalysisResultData(cs.value, rs.value, ss.value, sr.value, ps.value))
  }

  /** The outcome of `safeParseAnalysisResult`: `data` on success, `error` otherwise. */
  datatype SafeParse = SafeParse(success: bool, data: Option<AnalysisResultData>, error: Option<Path>)

  function SafeParseAnalysisResult(v: Json): (r: SafeParse)
    ensures r.success <==> r.data.Some?
    ensures r.success <==> r.error.None?
    ensures r.data.Some? ==> ValidAnalysisResult(r.data.value)
    ensures r.success <==> DecodeAnalysisResult(v).Ok?
  {
    match DecodeAnalysisResult(v)
    case Ok(d) => SafeParse(true, Some(d), None)
    case Err(p) => SafeParse(false, None, Some(p))
  }

  // ---------------------------------------------------------------------------
  // Encoding typed records back to JSON (the object the validator hands back)

  function OptionalMember(key: string, v: Option<Json>): seq<(string, Json)> {
    if v.Some? then [(key, v.value)] else []
  }

  function StringsJson(xs: seq<string>): (r: seq<Json>)
    ensures |r| == |xs| && forall i :: 0 <= i < |xs| ==> r[i] == Str(xs[i])
  {
    seq(|xs|, i requires 0 <= i < |xs| => Str(xs[i]))
  }

  function ComponentImpactJson(c: ComponentImpact): Json {
    Obj([("componentName", Str(c.componentName))]
        + OptionalMember("filePath", if c.filePath.Some? then Some(Str(c.filePath.value)) else None)
        + [("impactLevel", Str(c.impactLevel)),
           ("description", Str(c.description)),
           ("otherPagesAffected", Arr(StringsJson(c.otherPagesAffected))),
           ("confidence", Num(c.confidence))])
  }

  function RiskJson(r: Risk): Json {
    Obj([("id", Str(r.id)), ("severity", Str(r.severity)), ("category", Str(r.category)),
         ("title", Str(r.title)), ("description", Str(r.description))]
        + OptionalMember("affectedBreakpoints",
            if r.affectedBreakpoints.Some? then Some(Arr(StringsJson(r.affectedBreakpoints.value))) else None)
        + OptionalMember("mitigation", if r.mitigation.Some? then Some(Str(r.mitigation.value)) else None)
        + [("confidence", Num(r.confidence))])
  }

  function SuggestionJson(s: Suggestion): Json {
    Obj([("id", Str(s.id)), ("type", Str(s.kind)), ("priority", Str(s.priority)),
         ("title", Str(s.title)), ("description", Str(s.description))]
        + OptionalMember("codeExample", if s.codeExample.Some? then Some(Str(s.codeExample.value)) else None)
        + [("rationale", Str(s.rationale)), ("confidence", Num(s.confidence))])
  }

  function ComponentsJson(cs: seq<ComponentImpact>): (r: seq<Json>)
    ensures |r| == |cs| && forall i :: 0 <= i < |cs| ==> r[i] == ComponentImpactJson(cs[i])
  {
    seq(|cs|, i requires 0 <= i < |cs| => ComponentImpactJson(cs[i]))
  }

  function RisksJson(rs: seq<Risk>): (r: seq<Json>)
    ensures |r| == |rs| && forall i :: 0 <= i < |rs| ==> r[i] == RiskJson(rs[i])
  {
    seq(|rs|, i requires 0 <= i < |rs| => RiskJson(rs[i]))
  }

  function SuggestionsJson(ss: seq<Suggestion>): (r: seq<Json>)
    ensures |r| == |ss| && forall i :: 0 <= i < |ss| ==> r[i] == SuggestionJson(ss[i])
  {
    seq(|ss|, i requires 0 <= i < |ss| => SuggestionJson(ss[i]))
  }

  /** The object the validator hands back for a valid result: its five sections in schema order. */
  function AnalysisResultJson(d: AnalysisResultData): Json {
    Obj([("affectedComponents", Arr(ComponentsJson(d.affectedComponents))),
         ("risks", Arr(RisksJson(d.risks))),
         ("suggestions", Arr(SuggestionsJson(d.suggestions))),
         ("styleConsistency", StyleReviewJson(d.styleConsistency)),
         ("prScore", PRScoreJson(d.prScore))])
  }

  /** What reading each section of an encoded result finds. */
  lemma {:induction false} AnalysisResultSections(d: AnalysisResultData)
    ensures Get(AnalysisResultJson(d), "affectedComponents") == Some(Arr(ComponentsJson(d.affectedComponents)))
    ensures Get(AnalysisResultJson(d), "risks") == Some(Arr(RisksJson(d.risks)))
    ensures Get(AnalysisResultJson(d), "suggestions") == Some(Arr(SuggestionsJson(d.suggestions)))
    ensures Get(AnalysisResultJson(d), "styleConsistency") == Some(StyleReviewJson(d.styleConsistency))
    ensures Get(AnalysisResultJson(d), "prScore") == Some(PRScoreJson(d.prScore))
  {
    var v := AnalysisResultJson(d);
    LookupAt(v.members, 0);
    LookupAt(v.members, 1);
    LookupAt(v.members, 2);
    LookupAt(v.members, 3);
    LookupAt(v.members, 4);
  }

  function StyleReviewJson(s: StyleReview): Json {
    Obj([("overallConsistency", Num(s.overallConsistency)),
         ("designSystemAlignment", Num(s.designSystemAlignment)),
         ("colorConsistency", Num(s.colorConsistency)),
         ("spacingConsistency", Num(s.spacingConsistency)),
         ("typographyConsistency", Num(s.typographyConsistency)),
         ("issues", Arr(seq(|s.issues|, i requires 0 <= i < |s.issues| => StyleIssueJson(s.issues[i])))),
         ("confidence", Num(s.confidence))])
  }

  function StyleIssueJson(i: StyleIssue): Json {
    Obj([("property", Str(i.property)), ("issue", Str(i.issue)), ("suggestion", Str(i.suggestion))])
  }

  function BreakdownJson(b: Breakdown): Json {
    Obj([("codeConsistency", Num(b.codeConsistency)),
         ("reuseScore", Num(b.reuseScore)),
         ("aiDetectionRisk", Num(b.aiDetectionRisk)),
         ("cascadeRisk", Num(b.cascadeRisk)),
         ("responsiveScore", Num(b.responsiveScore)),
         ("semanticScore", Num(b.semanticScore)),
         ("intentAlignment", Num(b.intentAlignment))])
  }

  function FlagJson(f: Flag): Json {
    Obj([("type", Str(f.kind)), ("message", Str(f.message))]
        + OptionalMember("details", if f.details.Some? then Some(Str(f.details.value)) else None)
        + [("confidence", Num(f.confidence))])
  }

  function PRScoreJson(p: PRScore): Json {
    Obj([("overall", Num(p.overall)),
         ("breakdown", BreakdownJson(p.breakdown)),
         ("flags", Arr(seq(|p.flags|, i requires 0 <= i < |p.flags| => FlagJson(p.flags[i])))),
         ("summary", Str(p.summary)),
         ("wouldApprove", Bool(p.wouldApprove)),
         ("confidence", Num(p.confidence))])
  }

  lemma {:induction false} DecodeStyleIssuesOfJson(issues: seq<StyleIssue>, items: seq<Json>, path: Path, i: nat)
    requires |items| == |issues| && i <= |items|
    requires forall k :: 0 <= k < |items| ==> items[k] == StyleIssueJson(issues[k])
    ensures DecodeStyleIssues(items, path, i) == Ok(issues[i..])
    decreases |items| - i
  {
    if i < |items| {
      DecodeStyleIssuesOfJson(issues, items, path, i + 1);
      var ms := items[i].members;
      LookupAt(ms, 0);
      LookupAt(ms, 1);
      LookupAt(ms, 2);
      assert issues[i..] == [issues[i]] + issues[i + 1..];
    }
  }

  /** The style-review validator accepts the seven members an encoded valid review carries. */
  lemma {:induction false} StyleReviewOfValues(s: StyleReview, v: Json, items: seq<Json>, path: Path)
    requires ValidStyleReview(s) && v.Obj?
    requires Get(v, "overallConsistency") == Some(Num(s.overallConsistency))
    requires Get(v, "designSystemAlignment") == Some(Num(s.designSystemAlignment))
    requires Get(v, "colorConsistency") == Some(Num(s.colorConsistency))
    requires Get(v, "spacingConsistency") == Some(Num(s.spacingConsistency))
    requires Get(v, "typographyConsistency") == Some(Num(s.typographyConsistency))
    requires Get(v, "issues") == Some(Arr(items))
    requires Get(v, "confidence") == Some(Num(s.confidence))
    requires DecodeStyleIssues(items, path + ["issues"], 0) == Ok(s.issues)
    ensures DecodeStyleReview(v, path) == Ok(s)
  {
  }

  /** Each member of an encoded style review is what a lookup of its name finds. */
  lemma {:induction false} StyleReviewJsonRead(s: StyleReview, i: nat)
    requires i < 7
    ensures var ms := StyleReviewJson(s).members; Get(StyleReviewJson(s), ms[i].0) == Some(ms[i].1)
  {
    var ms := StyleReviewJson(s).members;
    if i == 0 { LookupAt(ms, 0); }
    else if i == 1 { LookupAt(ms, 1); }
    else if i == 2 { LookupAt(ms, 2); }
    else if i == 3 { LookupAt(ms, 3); }
    else if i == 4 { LookupAt(ms, 4); }
    else if i == 5 { LookupAt(ms, 5); }
    else { LookupAt(ms, 6); }
  }

  /** An encoded valid style review passes the validator and decodes to itself. */
  lemma {:induction false} StyleReviewRoundTrip(s: StyleReview, path: Path)
    requires ValidStyleReview(s)
    ensures DecodeStyleReview(StyleReviewJson(s), path) == Ok(s)
  {
    var v := StyleReviewJson(s);
    var items := seq(|s.issues|, i requires 0 <= i < |s.issues| => StyleIssueJson(s.issues[i]));
    StyleReviewJsonRead(s, 0);
    StyleReviewJsonRead(s, 1);
    StyleReviewJsonRead(s, 2);
    StyleReviewJsonRead(s, 3);
    StyleReviewJsonRead(s, 4);
    StyleReviewJsonRead(s, 5);
    StyleReviewJsonRead(s, 6);
    DecodeStyleIssuesOfJson(s.issues, items, path + ["issues"], 0);
    assert s.issues[0..] == s.issues;
    StyleReviewOfValues(s, v, items, path);
  }

  /** The breakdown validator accepts the seven numbers of a valid breakdown. */
  lemma {:induction false} BreakdownOfValues(b: Breakdown, path: Path)
    requires ValidBreakdown(b)
    ensures BreakdownOf(Some(Num(b.codeConsistency)), Some(Num(b.reuseScore)), Some(Num(b.aiDetectionRisk)),
                        Some(Num(b.cascadeRisk)), Some(Num(b.responsiveScore)), Some(Num(b.semanticScore)),
                        Some(Num(b.intentAlignment)), path) == Ok(b)
  {
    assert Percent(b.Get(CodeConsistency)) && Percent(b.Get(ReuseScore)) && Percent(b.Get(AiDetectionRisk));
    assert Percent(b.Get(CascadeRisk)) && Percent(b.Get(ResponsiveScore)) && Percent(b.Get(SemanticScore));
    assert Percent(b.Get(IntentAlignment));
  }

  /** Reading a metric's key in an encoded breakdown finds that metric's value. */
  lemma {:induction false} BreakdownJsonRead(b: Breakdown, m: Metric)
    ensures Get(BreakdownJson(b), MetricKey(m)) == Some(Num(b.Get(m)))
  {
    var ms := BreakdownJson(b).members;
    match m
    case CodeConsistency => LookupAt(ms, 0);
    case ReuseScore => LookupAt(ms, 1);
    case AiDetectionRisk => LookupAt(ms, 2);
    case CascadeRisk => LookupAt(ms, 3);
    case ResponsiveScore => LookupAt(ms, 4);
    case SemanticScore => LookupAt(ms, 5);
    case IntentAlignment => LookupAt(ms, 6);
  }

  /** An encoded valid breakdown passes the validator and decodes to itself. */
  lemma {:induction false} BreakdownRoundTrip(b: Breakdown, path: Path)
    requires ValidBreakdown(b)
    ensures DecodeBreakdown(BreakdownJson(b), path) == Ok(b)
  {
    BreakdownJsonRead(b, CodeConsistency);
    BreakdownJsonRead(b, ReuseScore);
    BreakdownJsonRead(b, AiDetectionRisk);
    BreakdownJsonRead(b, CascadeRisk);
    BreakdownJsonRead(b, ResponsiveScore);
    BreakdownJsonRead(b, SemanticScore);
    BreakdownJsonRead(b, IntentAlignment);
    BreakdownOfValues(b, path);
  }

  /** The four members an encoded component impact ends with. */
  function ComponentImpactTail(c: ComponentImpact): seq<(string, Json)> {
    [("impactLevel", Str(c.impactLevel)), ("description", Str(c.description)),
     ("otherPagesAffected", Arr(StringsJson(c.otherPagesAffected))), ("confidence", Num(c.confidence))]
  }

  lemma {:induction false} ComponentImpactTailReads(c: ComponentImpact)
    ensures Lookup(ComponentImpactTail(c), "impactLevel") == Some(Str(c.impactLevel))
    ensures Lookup(ComponentImpactTail(c), "description") == Some(Str(c.description))
    ensures Lookup(ComponentImpactTail(c), "otherPagesAffected") == Some(Arr(StringsJson(c.otherPagesAffected)))
    ensures Lookup(ComponentImpactTail(c), "confidence") == Some(Num(c.confidence))
    ensures Lookup(ComponentImpactTail(c), "componentName").None? && Lookup(ComponentImpactTail(c), "filePath").None?
  {
    var tail := ComponentImpactTail(c);
    LookupAt(tail, 0);
    LookupAt(tail, 1);
    LookupAt(tail, 2);
    LookupAt(tail, 3);
    LookupFound(tail, "componentName");
    LookupFound(tail, "filePath");
  }

  /** The members of an encoded component impact, in three runs: the name, the file path, the tail. */
  lemma {:induction false} ComponentImpactJsonRuns(c: ComponentImpact, key: string)
    ensures Lookup(ComponentImpactJson(c).members, key) ==
      if Lookup(ComponentImpactTail(c), key).Some? then Lookup(ComponentImpactTail(c), key)
      else if key == "filePath" then (if c.filePath.Some? then Some(Str(c.filePath.value)) else None)
      else if key == "componentName" then Some(Str(c.componentName))
      else None
  {
    var head: seq<(string, Json)> := [("componentName", Str(c.componentName))];
    var fp := OptionalMember("filePath", if c.filePath.Some? then Some(Str(c.filePath.value)) else None);
    var tail := ComponentImpactTail(c);
    assert ComponentImpactJson(c).members == head + fp + tail;
    LookupConcat(head + fp, tail, key);
    LookupConcat(head, fp, key);
  }

  /** What reading each member of an encoded component impact finds; an absent file path reads as `undefined`. */
  lemma {:induction false} ComponentImpactJsonReads(c: ComponentImpact)
    ensures var v := ComponentImpactJson(c);
      && Get(v, "componentName") == Some(Str(c.componentName)) && Get(v, "impactLevel") == Some(Str(c.impactLevel))
      && Get(v, "description") == Some(Str(c.description))
      && Get(v, "otherPagesAffected") == Some(Arr(StringsJson(c.otherPagesAffected)))
      && Get(v, "confidence") == Some(Num(c.confidence))
      && Get(v, "filePath") == (if c.filePath.Some? then Some(Str(c.filePath.value)) else None)
  {
    ComponentImpactTailReads(c);
    ComponentImpactJsonRuns(c, "componentName");
    ComponentImpactJsonRuns(c, "filePath");
    ComponentImpactJsonRuns(c, "impactLevel");
    ComponentImpactJsonRuns(c, "description");
    ComponentImpactJsonRuns(c, "otherPagesAffected");
    ComponentImpactJsonRuns(c, "confidence");
  }

  /** An encoded valid component impact passes the validator and decodes to itself. */
  lemma {:induction false} ComponentImpactRoundTrip(c: ComponentImpact, path: Path)
    requires ValidComponentImpact(c)
    ensures DecodeComponentImpact(ComponentImpactJson(c), path) == Ok(c)
  {
    ComponentImpactJsonReads(c);
    StringsOfJson(c.otherPagesAffected);
  }

  /** The five string members an encoded risk starts with. */
  function RiskHead(r: Risk): seq<(string, Json)> {
    [("id", Str(r.id)), ("severity", Str(r.severity)), ("category", Str(r.category)),
     ("title", Str(r.title)), ("description", Str(r.description))]
  }

  lemma {:induction false} RiskHeadReads(r: Risk)
    ensures Lookup(RiskHead(r), "id") == Some(Str(r.id))
    ensures Lookup(RiskHead(r), "severity") == Some(Str(r.severity))
    ensures Lookup(RiskHead(r), "category") == Some(Str(r.category))
    ensures Lookup(RiskHead(r), "title") == Some(Str(r.title))
    ensures Lookup(RiskHead(r), "description") == Some(Str(r.description))
    ensures Lookup(RiskHead(r), "affectedBreakpoints").None? && Lookup(RiskHead(r), "mitigation").None?
  {
    var head := RiskHead(r);
    LookupAt(head, 0);
    LookupAt(head, 1);
    LookupAt(head, 2);
    LookupAt(head, 3);
    LookupAt(head, 4);
    LookupFound(head, "affectedBreakpoints");
    LookupFound(head, "mitigation");
  }

  /** The members of an encoded risk, in four runs: the fixed head, the two optional members, the confidence. */
  lemma {:induction false} RiskJsonRuns(r: Risk, key: string)
    ensures Lookup(RiskJson(r).members, key) ==
      if key == "confidence" then Some(Num(r.confidence))
      else if key == "mitigation" && r.mitigation.Some? then Some(Str(r.mitigation.value))
      else if key == "affectedBreakpoints" && r.affectedBreakpoints.Some? then
        Some(Arr(StringsJson(r.affectedBreakpoints.value)))
      else Lookup(RiskHead(r), key)
  {
    var head := RiskHead(r);
    var bp := OptionalMember("affectedBreakpoints",
      if r.affectedBreakpoints.Some? then Some(Arr(StringsJson(r.affectedBreakpoints.value))) else None);
    var mt := OptionalMember("mitigation", if r.mitigation.Some? then Some(Str(r.mitigation.value)) else None);
    var tail: seq<(string, Json)> := [("confidence", Num(r.confidence))];
    assert RiskJson(r).members == head + bp + mt + tail;
    LookupConcat4(head, bp, mt, tail, key);
  }

  /** What reading each member of an encoded risk finds; an absent optional member reads as `undefined`. */
  lemma {:induction false} RiskJsonReads(r: Risk)
    ensures var v := RiskJson(r);
      && Get(v, "id") == Some(Str(r.id)) && Get(v, "severity") == Some(Str(r.severity))
      && Get(v, "category") == Some(Str(r.category)) && Get(v, "title") == Some(Str(r.title))
      && Get(v, "description") == Some(Str(r.description)) && Get(v, "confidence") == Some(Num(r.confidence))
      && Get(v, "affectedBreakpoints") ==
           (if r.affectedBreakpoints.Some? then Some(Arr(StringsJson(r.affectedBreakpoints.value))) else None)
      && Get(v, "mitigation") == (if r.mitigation.Some? then Some(Str(r.mitigation.value)) else None)
  {
    RiskHeadReads(r);
    RiskJsonRuns(r, "id");
    RiskJsonRuns(r, "severity");
    RiskJsonRuns(r, "category");
    RiskJsonRuns(r, "title");
    RiskJsonRuns(r, "description");
    RiskJsonRuns(r, "confidence");
    RiskJsonRuns(r, "affectedBreakpoints");
    RiskJsonRuns(r, "mitigation");
  }

  /** An encoded valid risk passes the validator and decodes to itself. */
  lemma {:induction false} RiskRoundTrip(r: Risk, path: Path)
    requires ValidRisk(r)
    ensures DecodeRisk(RiskJson(r), path) == Ok(r)
  {
    RiskJsonReads(r);
    if r.affectedBreakpoints.Some? {
      StringsOfJson(r.affectedBreakpoints.value);
    }
  }

  /** The five string members an encoded suggestion starts with. */
  function SuggestionHead(s: Suggestion): seq<(string, Json)> {
    [("id", Str(s.id)), ("type", Str(s.kind)), ("priority", Str(s.priority)),
     ("title", Str(s.title)), ("description", Str(s.description))]
  }

  lemma {:induction false} SuggestionHeadReads(s: Suggestion)
    ensures Lookup(SuggestionHead(s), "id") == Some(Str(s.id))
    ensures Lookup(SuggestionHead(s), "type") == Some(Str(s.kind))
    ensures Lookup(SuggestionHead(s), "priority") == Some(Str(s.priority))
    ensures Lookup(SuggestionHead(s), "title") == Some(Str(s.title))
    ensures Lookup(SuggestionHead(s), "description") == Some(Str(s.description))
    ensures Lookup(SuggestionHead(s), "codeExample").None?
  {
    var head := SuggestionHead(s);
    LookupAt(head, 0);
    LookupAt(head, 1);
    LookupAt(head, 2);
    LookupAt(head, 3);
    LookupAt(head, 4);
    LookupFound(head, "codeExample");
  }

  /** The members of an encoded suggestion, in three runs: the fixed head, the code example, the tail. */
  lemma {:induction false} SuggestionJsonRuns(s: Suggestion, key: string)
    ensures Lookup(SuggestionJson(s).members, key) ==
      if key == "confidence" then Some(Num(s.confidence))
      else if key == "rationale" then Some(Str(s.rationale))
      else if key == "codeExample" && s.codeExample.Some? then Some(Str(s.codeExample.value))
      else Lookup(SuggestionHead(s), key)
  {
    var head := SuggestionHead(s);
    var ex := OptionalMember("codeExample", if s.codeExample.Some? then Some(Str(s.codeExample.value)) else None);
    var tail: seq<(string, Json)> := [("rationale", Str(s.rationale)), ("confidence", Num(s.confidence))];
    assert SuggestionJson(s).members == head + ex + tail;
    LookupConcat(head + ex, tail, key);
    LookupConcat(head, ex, key);
    LookupAt(tail, 0);
    LookupAt(tail, 1);
    LookupFound(tail, key);
  }

  /** What reading each member of an encoded suggestion finds; an absent code example reads as `undefined`. */
  lemma {:induction false} SuggestionJsonReads(s: Suggestion)
    ensures var v := SuggestionJson(s);
      && Get(v, "id") == Some(Str(s.id)) && Get(v, "type") == Some(Str(s.kind))
      && Get(v, "priority") == Some(Str(s.priority)) && Get(v, "title") == Some(Str(s.title))
      && Get(v, "description") == Some(Str(s.description)) && Get(v, "rationale") == Some(Str(s.rationale))
      && Get(v, "confidence") == Some(Num(s.confidence))
      && Get(v, "codeExample") == (if s.codeExample.Some? then Some(Str(s.codeExample.value)) else None)
  {
    SuggestionHeadReads(s);
    SuggestionJsonRuns(s, "id");
    SuggestionJsonRuns(s, "type");
    SuggestionJsonRuns(s, "priority");
    SuggestionJsonRuns(s, "title");
    SuggestionJsonRuns(s, "description");
    SuggestionJsonRuns(s, "rationale");
    SuggestionJsonRuns(s, "confidence");
    SuggestionJsonRuns(s, "codeExample");
  }

  /** An encoded valid suggestion passes the validator and decodes to itself. */
  lemma {:induction false} SuggestionRoundTrip(s: Suggestion, path: Path)
    requires ValidSuggestion(s)
    ensures DecodeSuggestion(SuggestionJson(s), path) == Ok(s)
  {
    SuggestionJsonReads(s);
  }

  /** What reading each member of an encoded flag finds; absent details read as `undefined`. */
  lemma {:induction false} FlagJsonReads(f: Flag)
    ensures var v := FlagJson(f);
      && Get(v, "type") == Some(Str(f.kind)) && Get(v, "message") == Some(Str(f.message))
      && Get(v, "confidence") == Some(Num(f.confidence))
      && Get(v, "details") == (if f.details.Some? then Some(Str(f.details.value)) else None)
  {
    var ms := FlagJson(f).members;
    var n := if f.details.Some? then 1 else 0;
    assert |ms| == 3 + n;
    LookupAt(ms, 0);
    LookupAt(ms, 1);
    LookupAt(ms, 2 + n);
    if f.details.Some? {
      LookupAt(ms, 2);
    } else {
      LookupFound(ms, "details");
    }
  }

  /** An encoded valid flag passes the validator and decodes to itself. */
  lemma {:induction false} FlagRoundTrip(f: Flag, path: Path)
    requires ValidFlag(f)
    ensures DecodeFlag(FlagJson(f), path) == Ok(f)
  {
    FlagJsonReads(f);
  }

  /** An encoded string list is read back as itself. */
  lemma {:induction false} StringsOfJson(xs: seq<string>)
    ensures Strings(StringsJson(xs)) == Some(xs)
    decreases |xs|
  {
    if |xs| > 0 {
      StringsOfJson(xs[1..]);
      assert StringsJson(xs)[1..] == StringsJson(xs[1..]);
      assert xs == [xs[0]] + xs[1..];
    }
  }

  /** Every element of an encoded list of valid components is accepted, in order. */
  lemma {:induction false} DecodeComponentsOfJson(cs: seq<ComponentImpact>, items: seq<Json>, path: Path, i: nat)
    requires |items| == |cs| && i <= |items|
    requires forall k :: 0 <= k < |items| ==> items[k] == ComponentImpactJson(cs[k]) && ValidComponentImpact(cs[k])
    ensures DecodeComponents(items, path, i) == Ok(cs[i..])
    decreases |items| - i
  {
    if i < |items| {
      DecodeComponentsOfJson(cs, items, path, i + 1);
      ComponentImpactRoundTrip(cs[i], path + [IntText(i)]);
      assert DecodeComponentImpact(items[i], path + [IntText(i)]) == Ok(cs[i]);
      assert cs[i..] == [cs[i]] + cs[i + 1..];
    }
  }

  /** Every element of an encoded list of valid risks is accepted, in order. */
  lemma {:induction false} DecodeRisksOfJson(rs: seq<Risk>, items: seq<Json>, path: Path, i: nat)
    requires |items| == |rs| && i <= |items|
    requires forall k :: 0 <= k < |items| ==> items[k] == RiskJson(rs[k]) && ValidRisk(rs[k])
    ensures DecodeRisks(items, path, i) == Ok(rs[i..])
    decreases |items| - i
  {
    if i < |items| {
      DecodeRisksOfJson(rs, items, path, i + 1);
      RiskRoundTrip(rs[i], path + [IntText(i)]);
      assert DecodeRisk(items[i], path + [IntText(i)]) == Ok(rs[i]);
      assert rs[i..] == [rs[i]] + rs[i + 1..];
    }
  }

  /** Every element of an encoded list of valid suggestions is accepted, in order. */
  lemma {:induction false} DecodeSuggestionsOfJson(ss: seq<Suggestion>, items: seq<Json>, path: Path, i: nat)
    requires |items| == |ss| && i <= |items|
    requires forall k :: 0 <= k < |items| ==> items[k] == SuggestionJson(ss[k]) && ValidSuggestion(ss[k])
    ensures DecodeSuggestions(items, path, i) == Ok(ss[i..])
    decreases |items| - i
  {
    if i < |items| {
      DecodeSuggestionsOfJson(ss, items, path, i + 1);
      SuggestionRoundTrip(ss[i], path + [IntText(i)]);
      assert DecodeSuggestion(items[i], path + [IntText(i)]) == Ok(ss[i]);
      assert ss[i..] == [ss[i]] + ss[i + 1..];
    }
  }

  /** Every element of an encoded list of valid flags is accepted, in order. */
  lemma {:induction false} DecodeFlagsOfJson(fs: seq<Flag>, items: seq<Json>, path: Path, i: nat)
    requires |items| == |fs| && i <= |items|
    requires forall k :: 0 <= k < |items| ==> items[k] == FlagJson(fs[k]) && ValidFlag(fs[k])
    ensures DecodeFlags(items, path, i) == Ok(fs[i..])
    decreases |items| - i
  {
    if i < |items| {
      DecodeFlagsOfJson(fs, items, path, i + 1);
      FlagRoundTrip(fs[i], path + [IntText(i)]);
      assert DecodeFlag(items[i], path + [IntText(i)]) == Ok(fs[i]);
      assert fs[i..] == [fs[i]] + fs[i + 1..];
    }
  }

  /** What reading each member of an encoded PR score finds. */
  lemma {:induction false} PRScoreJsonReads(p: PRScore)
    ensures var v := PRScoreJson(p);
      && Get(v, "overall") == Some(Num(p.overall)) && Get(v, "breakdown") == Some(BreakdownJson(p.breakdown))
      && Get(v, "flags") == Some(PRScoreJson(p).members[2].1) && Get(v, "summary") == Some(Str(p.summary))
      && Get(v, "wouldApprove") == Some(Bool(p.wouldApprove)) && Get(v, "confidence") == Some(Num(p.confidence))
  {
    var ms := PRScoreJson(p).members;
    LookupAt(ms, 0);
    LookupAt(ms, 1);
    LookupAt(ms, 2);
    LookupAt(ms, 3);
    LookupAt(ms, 4);
    LookupAt(ms, 5);
  }

  /** The PR-score validator accepts the members an encoded valid score carries. */
  lemma {:induction false} PRScoreOfValues(p: PRScore, v: Json, items: seq<Json>, path: Path)
    requires ValidPRScore(p) && v.Obj?
    requires Get(v, "overall") == Some(Num(p.overall))
    requires Get(v, "breakdown") == Some(BreakdownJson(p.breakdown))
    requires Get(v, "flags") == Some(Arr(items))
    requires Get(v, "summary") == Some(Str(p.summary))
    requires Get(v, "wouldApprove") == Some(Bool(p.wouldApprove))
    requires Get(v, "confidence") == Some(Num(p.confidence))
    requires DecodeFlags(items, path + ["flags"], 0) == Ok(p.flags)
    ensures DecodePRScore(v, path) == Ok(p)
  {
    BreakdownRoundTrip(p.breakdown, path + ["breakdown"]);
  }

  /** An encoded valid PR score passes the validator and decodes to itself. */
  lemma {:induction false} PRScoreRoundTrip(p: PRScore, path: Path)
    requires ValidPRScore(p)
    ensures DecodePRScore(PRScoreJson(p), path) == Ok(p)
  {
    var items := PRScoreJson(p).members[2].1.items;
    PRScoreJsonReads(p);
    DecodeFlagsOfJson(p.flags, items, path + ["flags"], 0);
    assert p.flags[0..] == p.flags;
    PRScoreOfValues(p, PRScoreJson(p), items, path);
  }

  /** The section validator accepts five sections that each pass their own validator. */
  lemma {:induction false} DecodeSectionsOfValues(d: AnalysisResultData, cs: seq<Json>, rs: seq<Json>, ss: seq<Json>,
                                                  style: Json, score: Json)
    requires DecodeComponents(cs, ["affectedComponents"], 0) == Ok(d.affectedComponents)
    requires DecodeRisks(rs, ["risks"], 0) == Ok(d.risks)
    requires DecodeSuggestions(ss, ["suggestions"], 0) == Ok(d.suggestions)
    requires DecodeStyleReview(style, ["styleConsistency"]) == Ok(d.styleConsistency)
    requires DecodePRScore(score, ["prScore"]) == Ok(d.prScore)
    ensures DecodeSections(Some(Arr(cs)), Some(Arr(rs)), Some(Arr(ss)), Some(style), Some(score)) == Ok(d)
  {
  }

  /** An encoded valid analysis result passes the validator and decodes to itself. */
  lemma {:induction false} AnalysisResultRoundTrip(d: AnalysisResultData)
    requires ValidAnalysisResult(d)
    ensures DecodeAnalysisResult(AnalysisResultJson(d)) == Ok(d)
  {
    AnalysisResultSections(d);
    DecodeComponentsOfJson(d.affectedComponents, ComponentsJson(d.affectedComponents), ["affectedComponents"], 0);
    DecodeRisksOfJson(d.risks, RisksJson(d.risks), ["risks"], 0);
    DecodeSuggestionsOfJson(d.suggestions, SuggestionsJson(d.suggestions), ["suggestions"], 0);
    StyleReviewRoundTrip(d.styleConsistency, ["styleConsistency"]);
    PRScoreRoundTrip(d.prScore, ["prScore"]);
    assert d.affectedComponents[0..] == d.affectedComponents;
    assert d.risks[0..] == d.risks;
    assert d.suggestions[0..] == d.suggestions;
    DecodeSectionsOfValues(d, ComponentsJson(d.affectedComponents), RisksJson(d.risks), SuggestionsJson(d.suggestions),
                           StyleReviewJson(d.styleConsistency), PRScoreJson(d.prScore));
  }

  // ---------------------------------------------------------------------------
  // The JSON schema shown to the model: its `required` lists

  const PromptRequiredTop: seq<string> :=
    ["affectedComponents", "risks", "suggestions", "styleConsistency", "prScore"]
  const PromptRequiredComponent: seq<string> :=
    ["componentName", "impactLevel", "description", "otherPagesAffected", "confidence"]
  const PromptRequiredRisk: seq<string> := ["id", "severity", "category", "title", "description", "confidence"]
  const PromptRequiredSuggestion: seq<string> :=
    ["id", "type", "priority", "title", "description", "rationale", "confidence"]
  const PromptRequiredStyle: seq<string> :=
    ["overallConsistency", "designSystemAlignment", "colorConsistency", "spacingConsistency",
     "typographyConsistency", "issues", "confidence"]
  const PromptRequiredPRScore: seq<string> :=
    ["overall", "breakdown", "flags", "summary", "wouldApprove", "confidence"]
  /** The breakdown object of the prompt schema declares no `required` list. */
  const PromptRequiredBreakdown: seq<string> := []

  /** A reply that lacks any section the prompt schema lists as required is rejected by the validator. */
  lemma {:induction false} PromptRequiredSectionsEnforced(v: Json, i: nat)
    requires i < |PromptRequiredTop| && Get(v, PromptRequiredTop[i]).None?
    ensures DecodeAnalysisResult(v).Err?
  {
  }

  /**
   * The validator rejects a breakdown that lacks any metric, although the prompt schema's breakdown
   * object requires none of them.
   */
  lemma {:induction false} MissingMetricRejected(v: Json, path: Path, m: Metric)
    requires Get(v, MetricKey(m)).None?
    ensures DecodeBreakdown(v, path).Err? && |PromptRequiredBreakdown| == 0
  {
  }
}
