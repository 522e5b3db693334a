/**
 * The context handed to the analysis prompt: the change, the page, defaults for what the page
 * did not report, and derived fields (which style properties changed); plus the two estimates
 * that feed the confidence figure, the complexity of a change and the quality of the context.
 */
module Context {
  import opened Wrappers
  import opened JsStrings
  import opened JsMath
  import opened Records

  /** A `Record<string, string>` of CSS properties. */
  type StyleMap = seq<(string, string)>

  /** `'text' | 'style'`. */
  datatype ChangeKind = TextKind | StyleKind

  datatype ElementState = ElementState(textContent: Option<string>, styles: Option<StyleMap>)

  datatype ChangeInput = ChangeInput(
    id: string,
    kind: ChangeKind,
    elementTag: string,
    xpath: string,
    selector: string,
    original: ElementState,
    modified: ElementState)

  /** What the page reported; `None` is an absent (undefined) field. */
  datatype AnalysisContext = AnalysisContext(
    pageUrl: string,
    surroundingHTML: Option<string>,
    designSystem: Option<string>,
    existingClasses: Option<seq<string>>,
    viewportWidth: Option<real>)

  datatype PromptContext = PromptContext(
    changeId: string,
    changeType: ChangeKind,
    elementTag: string,
    xpath: string,
    selector: string,
    original: ElementState,
    modified: ElementState,
    pageUrl: string,
    surroundingHTML: string,
    designSystem: string,
    existingClasses: seq<string>,
    viewportWidth: real,
    isTextChange: bool,
    isStyleChange: bool,
    styleChangeCount: nat,
    changedStyleProperties: seq<string>)

  // ---------------------------------------------------------------------------
  // Changed style properties

  /** The keys of `keys` whose values differ between the two maps, in order. */
  function Differing(original: StyleMap, modified: StyleMap, keys: seq<string>): (r: seq<string>)
    ensures forall k :: k in r <==> k in keys && Lookup(original, k) != Lookup(modified, k)
    ensures (forall i, j :: 0 <= i < j < |keys| ==> keys[i] != keys[j]) ==>
      forall i, j :: 0 <= i < j < |r| ==> r[i] != r[j]
  {
    if |keys| == 0 then []
    else
      var init := keys[..|keys| - 1];
      var k := keys[|keys| - 1];
      assert keys == init + [k];
      Differing(original, modified, init) + (if Lookup(original, k) != Lookup(modified, k) then [k] else [])
  }

  /** Every key of either map, each once: the iteration order of the source's key set. */
  function AllKeys(original: StyleMap, modified: StyleMap): seq<string> {
    Dedup(Keys(original) + Keys(modified))
  }

  /** The changed properties: none when either map is absent. */
  function ChangedKeys(original: Option<StyleMap>, modified: Option<StyleMap>): seq<string> {
    if original.None? || modified.None? then []
    else Differing(original.value, modified.value, AllKeys(original.value, modified.value))
  }

  /**
   * A key is reported exactly when both maps are present and the key's values differ (a key
   * present in only one map differs from the absent value), and no key is reported twice.
   */
  lemma {:induction false} ChangedKeysExactly(original: Option<StyleMap>, modified: Option<StyleMap>, k: string)
    ensures k in ChangedKeys(original, modified) <==>
      original.Some? && modified.Some? && Lookup(original.value, k) != Lookup(modified.value, k)
    ensures var r := ChangedKeys(original, modified); forall i, j :: 0 <= i < j < |r| ==> r[i] != r[j]
  {
    if original.Some? && modified.Some? {
      KeysAreLookups(original.value, k);
      KeysAreLookups(modified.value, k);
    }
  }

  method ChangedStyleProperties(original: Option<StyleMap>, modified: Option<StyleMap>) returns (changed: seq<string>)
    ensures changed == ChangedKeys(original, modified)
  {
    if original.None? || modified.None? {
      return [];
    }
    changed := [];
    var allKeys := AllKeys(original.value, modified.value);
    var i := 0;
    while i < |allKeys|
      invariant 0 <= i <= |allKeys|
      invariant changed == Differing(original.value, modified.value, allKeys[..i])
    {
      var key := allKeys[i];
      assert allKeys[..i + 1][..i] == allKeys[..i];
      if Lookup(original.value, key) != Lookup(modified.value, key) {
        changed := changed + [key];
      }
      i := i + 1;
    }
    assert allKeys[..i] == allKeys;
  }

  // ---------------------------------------------------------------------------
  // The prompt context

  const DefaultDesignSystem := "unknown"
  const DefaultViewportWidth := 1920.0

  /** `value || fallback` for an optional string: the empty string is falsy. */
  function StringOr(value: Option<string>, fallback: string): (r: string)
    ensures r == fallback || (value.Some? && r == value.value && r != "")
    ensures value.Some? && value.value != "" ==> r == value.value
  {
    if value.Some? && value.value != "" then value.value else fallback
  }

  function BuildPromptContext(change: ChangeInput, context: AnalysisContext): (r: PromptContext)
    ensures r.changeId == change.id && r.changeType == change.kind && r.pageUrl == context.pageUrl
    ensures r.elementTag == change.elementTag && r.xpath == change.xpath && r.selector == change.selector
    ensures r.original == change.original && r.modified == change.modified
    ensures r.surroundingHTML == (if context.surroundingHTML.Some? then context.surroundingHTML.value else "")
    ensures r.designSystem != "" && (r.designSystem == DefaultDesignSystem <==>
      context.designSystem.None? || context.designSystem.value in {"", DefaultDesignSystem})
    ensures context.designSystem.Some? && context.designSystem.value != "" ==> r.designSystem == context.designSystem.value
    ensures r.existingClasses == (if context.existingClasses.Some? then context.existingClasses.value else [])
    ensures r.viewportWidth != 0.0
    ensures context.viewportWidth.Some? && context.viewportWidth.value != 0.0 ==> r.viewportWidth == context.viewportWidth.value
    ensures context.viewportWidth.None? || context.viewportWidth.value == 0.0 ==> r.viewportWidth == DefaultViewportWidth
    ensures r.isTextChange <==> change.kind == TextKind
    ensures r.isStyleChange <==> change.kind == StyleKind
    ensures r.styleChangeCount == |r.changedStyleProperties|
    ensures r.changedStyleProperties == ChangedKeys(change.original.styles, change.modified.styles)
  {
    var changed := ChangedKeys(change.original.styles, change.modified.styles);
    PromptContext(
      change.id, change.kind, change.elementTag, change.xpath, change.selector,
      change.original, change.modified,
      context.pageUrl,
      StringOr(context.surroundingHTML, ""),
      StringOr(context.designSystem, DefaultDesignSystem),
      if context.existingClasses.Some? then context.existingClasses.value else [],
      if context.viewportWidth.Some? && context.viewportWidth.value != 0.0 then context.viewportWidth.value
      else DefaultViewportWidth,
      change.kind == TextKind,
      change.kind == StyleKind,
      |changed|,
      changed)
  }

  // ---------------------------------------------------------------------------
  // Change complexity

  const HighImpactProps: seq<string> := ["display", "position", "width", "height", "grid", "flex"]

  /** Some changed property, lower-cased, contains one of the high-impact names. */
  predicate HasHighImpact(props: seq<string>) {
    exists i, j :: 0 <= i < |props| && 0 <= j < |HighImpactProps| && Contains(ToLower(props[i]), HighImpactProps[j])
  }

  /** `text?.length || 0`. */
  function TextLength(text: Option<string>): nat {
    if text.Some? then |text.value| else 0
  }

  function TextComplexity(change: ChangeInput): real {
    Min(Abs(TextLength(change.modified.textContent) as real - TextLength(change.original.textContent) as real) / 100.0, 0.5)
  }

  function StyleComplexity(props: seq<string>): real {
    var base := Min(|props| as real / 10.0, 0.7);
    if HasHighImpact(props) then Min(base + 0.2, 1.0) else base
  }

  /** The complexity estimate: by length difference for text, by changed properties for style. */
  function ChangeComplexity(change: ChangeInput): real {
    match change.kind
    case TextKind => TextComplexity(change)
    case StyleKind => StyleComplexity(ChangedKeys(change.original.styles, change.modified.styles))
  }

  method EstimateChangeComplexity(change: ChangeInput) returns (complexity: real)
    ensures complexity == ChangeComplexity(change)
  {
    complexity := 0.0;
    if change.kind == TextKind {
      var originalLen := TextLength(change.original.textContent);
      var modifiedLen := TextLength(change.modified.textContent);
      var diff := Abs(modifiedLen as real - originalLen as real);
      complexity := Min(diff / 100.0, 0.5);
    }
    if change.kind == StyleKind {
      var changedProps := ChangedStyleProperties(change.original.styles, change.modified.styles);
      complexity := Min(|changedProps| as real / 10.0, 0.7);
      var hasHighImpact := exists i, j | 0 <= i < |changedProps| && 0 <= j < |HighImpactProps| ::
        Contains(ToLower(changedProps[i]), HighImpactProps[j]);
      if hasHighImpact {
        complexity := Min(complexity + 0.2, 1.0);
      }
    }
  }

  /** Text changes stay within [0, 0.5], style changes within [0, 0.9]. */
  lemma {:induction false} ComplexityRange(change: ChangeInput)
    ensures 0.0 <= ChangeComplexity(change) <= 0.9
    ensures change.kind == TextKind ==> ChangeComplexity(change) <= 0.5
  {
  }

  /** Swapping the original and the modified text does not change a text change's complexity. */
  lemma {:induction false} TextComplexitySymmetric(change: ChangeInput)
    ensures TextComplexity(change) ==
      TextComplexity(change.(original := change.modified, modified := change.original))
  {
  }

  /**
   * Text complexity depends on the texts only through the absolute difference of their lengths:
   * two changes whose lengths differ by the same amount are equally complex.
   */
  lemma {:induction false} TextComplexityOfDifference(a: ChangeInput, b: ChangeInput)
    requires Abs(TextLength(a.modified.textContent) as real - TextLength(a.original.textContent) as real)
      == Abs(TextLength(b.modified.textContent) as real - TextLength(b.original.textContent) as real)
    ensures TextComplexity(a) == TextComplexity(b)
  {
  }

  /**
   * A style change is as complex as a tenth per changed property, capped at 0.7; a high-impact
   * property adds 0.2 (the cap at 1 never applies). It is zero exactly when no property changed.
   */
  lemma {:induction false} StyleComplexityShape(props: seq<string>)
    ensures !HasHighImpact(props) ==> StyleComplexity(props) == Min(|props| as real / 10.0, 0.7)
    ensures HasHighImpact(props) ==> StyleComplexity(props) == Min(|props| as real / 10.0, 0.7) + 0.2
    ensures StyleComplexity(props) == 0.0 <==> |props| == 0
  {
  }

  // ---------------------------------------------------------------------------
  // Context quality

  predicate RichHTML(context: AnalysisContext) {
    context.surroundingHTML.Some? && |context.surroundingHTML.value| > 100
  }

  predicate KnownDesignSystem(context: AnalysisContext) {
    context.designSystem.Some? && context.designSystem.value != "" && context.designSystem.value != DefaultDesignSystem
  }

  predicate HasClasses(context: AnalysisContext) {
    context.existingClasses.Some? && |context.existingClasses.value| > 0
  }

  predicate HasViewport(context: AnalysisContext) {
    context.viewportWidth.Some? && context.viewportWidth.value != 0.0
  }

  /** Base quality 0.3 plus a bonus per reported field, read from the context as the page gave it. */
  function ContextQuality(context: AnalysisContext): real {
    Min(0.3 + (if RichHTML(context) then 0.3 else 0.0) + (if KnownDesignSystem(context) then 0.2 else 0.0)
            + (if HasClasses(context) then 0.1 else 0.0) + (if HasViewport(context) then 0.1 else 0.0), 1.0)
  }

  method EstimateContextQuality(context: AnalysisContext) returns (quality: real)
    ensures quality == ContextQuality(context)
  {
    quality := 0.3;
    if context.surroundingHTML.Some? && |context.surroundingHTML.value| > 100 {
      quality := quality + 0.3;
    }
    if context.designSystem.Some? && context.designSystem.value != "" && context.designSystem.value != "unknown" {
      quality := quality + 0.2;
    }
    if context.existingClasses.Some? && |context.existingClasses.value| > 0 {
      quality := quality + 0.1;
    }
    if context.viewportWidth.Some? && context.viewportWidth.value != 0.0 {
      quality := quality + 0.1;
    }
    quality := Min(quality, 1.0);
  }

  /** The quality lies in [0.3, 1], and reaches 1 exactly when all four bonuses apply. */
  lemma {:induction false} QualityRange(context: AnalysisContext)
    ensures 0.3 <= ContextQuality(context) <= 1.0
    ensures ContextQuality(context) == 1.0 <==>
      RichHTML(context) && KnownDesignSystem(context) && HasClasses(context) && HasViewport(context)
  {
  }

  /**
   * The estimate reads the raw context: a page that reported nothing scores the base 0.3 even
   * though the prompt context fills in a non-zero viewport width.
   */
  lemma {:induction false} QualityIgnoresDefaults(change: ChangeInput, pageUrl: string)
    ensures var bare := AnalysisContext(pageUrl, None, None, None, None);
      && ContextQuality(bare) == 0.3
      && BuildPromptContext(change, bare).viewportWidth == DefaultViewportWidth
      && BuildPromptContext(change, bare).designSystem == DefaultDesignSystem
  {
  }
}
