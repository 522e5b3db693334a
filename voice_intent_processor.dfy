/**
 * The voice intent processor. A spoken or typed command is turned into a prompt, sent to the
 * model, and the model's JSON reply is normalised into a list of DOM changes: only `style`
 * changes with at least one whitelisted, non-empty style and `text` changes with non-empty text
 * survive, and common colour names become hex values.
 *
 * The provider call and `JSON.parse` are inputs here: a function from the request sent to the
 * completion (or the error it threw), and a parse function (`None` when parsing throws). The
 * text of the system prompt is not modelled; the request only records that it comes first.
 */
module VoiceIntent {
  import opened Wrappers
  import opened JsStrings
  import opened Json
  import opened Records
  import VoicePrompts
  import ChangeAnalyzer

  // ---------------------------------------------------------------------------
  // Changes and responses

  /** `'style'` or `'text'`: what a change touches. */
  datatype ChangeKind = StyleChange | TextChange

  /** The `type` string that names a change kind. */
  function KindName(k: ChangeKind): string {
    match k
    case StyleChange => "style"
    case TextChange => "text"
  }

  /**
   * A normalised change. The element id, selector and description are whatever the reply held
   * (the source only casts them), so they stay JSON values here.
   */
  datatype VoiceChange = VoiceChange(
    kind: ChangeKind,
    elementId: Option<Json>,
    elementSelector: Option<Json>,
    elementDescription: Option<Json>,
    styles: Option<seq<(string, string)>>,
    text: Option<string>)

  /** A change worth applying: a style change with a style, or a text change with text. */
  predicate HasContent(c: VoiceChange) {
    match c.kind
    case StyleChange => c.styles.Some? && |c.styles.value| > 0
    case TextChange => c.text.Some? && |c.text.value| > 0
  }

  datatype VoiceResponse = VoiceResponse(
    understood: bool,
    interpretation: string,
    changes: seq<VoiceChange>,
    clarificationNeeded: Option<Json>,
    suggestions: Option<seq<Json>>,
    error: Option<string>)

  /** The answer to an empty or blank command. */
  const NoCommand := VoiceResponse(false, "No command provided", [], None, None,
                                   Some("Please provide a command to process"))

  /** The answer when the reply is not JSON, or is `null`. */
  const ParseFailure := VoiceResponse(false, "Failed to parse the response", [], None, None,
                                      Some("Invalid response format from AI"))

  /** The answer when the provider call throws. */
  function ProcessFailure(t: Thrown): (r: VoiceResponse)
    ensures !r.understood && r.changes == [] && r.error.Some?
    ensures t.ErrorWith? ==> r.error == Some(t.message)
  {
    VoiceResponse(false, "Failed to process the command", [], None, None,
                  Some(if t.ErrorWith? then t.message else "Unknown error occurred"))
  }

  // ---------------------------------------------------------------------------
  // Colour values

  /** The properties whose values may name a colour. */
  const ColorProperties: seq<string> := ["color", "backgroundColor", "borderColor"]

  /** The colour names the processor knows, each with its hex value. */
  const ColorMap: seq<(string, string)> := [
    ("red", "#EF4444"), ("blue", "#3B82F6"), ("green", "#10B981"), ("yellow", "#F59E0B"),
    ("orange", "#F97316"), ("purple", "#8B5CF6"), ("pink", "#EC4899"), ("gray", "#6B7280"),
    ("grey", "#6B7280"), ("black", "#000000"), ("white", "#FFFFFF"), ("teal", "#14B8A6"),
    ("cyan", "#06B6D4"), ("indigo", "#6366F1"), ("lime", "#84CC16"), ("amber", "#F59E0B"),
    ("emerald", "#10B981"), ("sky", "#0EA5E9"), ("violet", "#8B5CF6"), ("rose", "#F43F5E"),
    ("slate", "#64748B"), ("zinc", "#71717A"), ("neutral", "#737373"), ("stone", "#78716C")]

  /** `#` followed by six hexadecimal digits. */
  predicate IsHexColor(s: string) {
    |s| == 7 && s[0] == '#' && forall i :: 1 <= i < 7 ==> IsHexDigit(s[i])
  }

  /** Every colour name is a short word starting with a lower-case letter. */
  lemma {:induction false} ColorNamesShape()
    ensures forall i :: 0 <= i < |ColorMap| ==> 0 < |ColorMap[i].0| <= 7 && 'a' <= ColorMap[i].0[0] <= 'z'
  {
  }

  /** Every colour value is a hex colour. */
  lemma {:induction false} ColorValuesShape()
    ensures forall i :: 0 <= i < |ColorMap| ==> IsHexColor(ColorMap[i].1)
  {
  }

  /** No colour name appears twice. */
  lemma {:induction false} ColorNamesDistinct()
    ensures forall i, j :: 0 <= i < j < |ColorMap| ==> ColorMap[i].0 != ColorMap[j].0
  {
  }

  /**
   * `normalizeColorValue(property, value)`: for a colour property, a value that names a known
   * colour (ignoring case and surrounding white space) becomes that colour's hex value; any other
   * value, and every value of another property, comes back as it was.
   */
  function NormalizeColorValue(property: string, value: string): (r: string)
    ensures r == value || (property in ColorProperties && IsHexColor(r))
    ensures property !in ColorProperties ==> r == value
  {
    if property !in ColorProperties then value
    else
      match Lookup(ColorMap, ToLower(Trim(value)))
      case Some(hex) =>
        ColorValuesShape();
        LookupFound(ColorMap, ToLower(Trim(value)));
        hex
      case None => value
  }

  /** A known colour name is mapped to its hex value whatever its case and surrounding spaces. */
  lemma {:induction false} ColorNameMapped(property: string, value: string, i: nat)
    requires property in ColorProperties
    requires i < |ColorMap| && ToLower(Trim(value)) == ColorMap[i].0
    ensures NormalizeColorValue(property, value) == ColorMap[i].1
  {
    ColorNamesDistinct();
    LookupAt(ColorMap, i);
  }

  /** A string that starts with neither white space nor ends with it is its own trim. */
  lemma {:induction false} TrimUnpadded(s: string)
    requires |s| > 0 && !IsWhiteSpace(s[0]) && !IsWhiteSpace(s[|s| - 1])
    ensures Trim(s) == s
  {
    assert TrimStart(s) == s;
  }

  /** A hex colour is not a colour name, however it is cased or trimmed. */
  lemma {:induction false} HexNotAName(hex: string)
    requires IsHexColor(hex)
    ensures Lookup(ColorMap, ToLower(Trim(hex))).None?
  {
    TrimUnpadded(hex);
    ColorNamesShape();
    LookupFound(ColorMap, ToLower(hex));
  }

  /** Normalising a normalised value changes nothing: no hex value is itself a colour name. */
  lemma {:induction false} NormalizeColorIdempotent(property: string, value: string)
    ensures NormalizeColorValue(property, NormalizeColorValue(property, value))
         == NormalizeColorValue(property, value)
  {
    var r := NormalizeColorValue(property, value);
    if r != value {
      HexNotAName(r);
    }
  }

  // ---------------------------------------------------------------------------
  // The colour lookup as written

  /**
   * What `colorMap[lowerValue]` answers in JavaScript: an own entry of the literal, or one of the
   * properties every object inherits whose name is all lower case (`constructor` and
   * `__proto__`, a function and an object, both truthy).
   */
  datatype ColorHit = OwnHex(hex: string) | Inherited(name: string)

  const InheritedLowerNames: seq<string> := ["constructor", "__proto__"]

  function ColorIndexAsWritten(lower: string): Option<ColorHit> {
    match Lookup(ColorMap, lower)
    case Some(hex) => Some(OwnHex(hex))
    case None => if lower in InheritedLowerNames then Some(Inherited(lower)) else None
  }

  /** The value `normalizeColorValue` returns as written: a string, or an inherited member. */
  datatype StyleValue = StringValue(s: string) | MemberValue(name: string)

  function NormalizeColorValueAsWritten(property: string, value: string): (r: StyleValue)
    ensures r.StringValue? ==> r.s == NormalizeColorValue(property, value)
  {
    if property !in ColorProperties then StringValue(value)
    else
      match ColorIndexAsWritten(ToLower(Trim(value)))
      case Some(OwnHex(hex)) => StringValue(hex)
      case Some(Inherited(name)) => MemberValue(name)
      case None => StringValue(value)
  }

  /**
   * A colour value that reads `constructor` once lower-cased and trimmed (`"Constructor"`, say)
   * names no colour, yet the lookup as written finds the inherited `constructor` function and
   * returns it in place of a string.
   */
  lemma {:induction false} PrototypeNameCounterexample(value: string)
    requires ToLower(Trim(value)) == "constructor"
    ensures NormalizeColorValueAsWritten("color", value) == MemberValue("constructor")
    ensures NormalizeColorValue("color", value) == value
  {
    InheritedConstructor("color", value);
    ConstructorKept(value);
  }

  lemma {:induction false} InheritedConstructor(property: string, value: string)
    requires property in ColorProperties && ToLower(Trim(value)) == "constructor"
    ensures NormalizeColorValueAsWritten(property, value) == MemberValue("constructor")
  {
    var lower := ToLower(Trim(value));
    InheritedName(lower);
  }

  lemma {:induction false} InheritedName(lower: string)
    requires lower == "constructor"
    ensures ColorIndexAsWritten(lower) == Some(Inherited("constructor"))
  {
    ConstructorNotAName();
  }

  lemma {:induction false} ConstructorKept(value: string)
    requires ToLower(Trim(value)) == "constructor"
    ensures NormalizeColorValue("color", value) == value
  {
    ConstructorNotAName();
  }

  /** `constructor` is longer than every colour name. */
  lemma {:induction false} ConstructorNotAName()
    ensures Lookup(ColorMap, "constructor").None?
  {
    ColorNamesShape();
    LookupFound(ColorMap, "constructor");
  }

  // ---------------------------------------------------------------------------
  // Styles

  /** The CSS properties a style change may set. */
  const ValidProperties: seq<string> := [
    "color", "backgroundColor", "fontSize", "fontWeight", "fontFamily",
    "fontStyle", "textAlign", "textDecoration", "lineHeight", "letterSpacing",
    "width", "height", "minWidth", "minHeight", "maxWidth", "maxHeight",
    "padding", "paddingTop", "paddingRight", "paddingBottom", "paddingLeft",
    "margin", "marginTop", "marginRight", "marginBottom", "marginLeft",
    "border", "borderRadius", "borderColor", "borderWidth", "borderStyle",
    "display", "visibility", "opacity", "overflow",
    "position", "top", "right", "bottom", "left", "zIndex",
    "flexDirection", "justifyContent", "alignItems", "gap",
    "boxShadow", "textShadow", "transform"]

  /** `Object.entries(value)` of an object or array; other values have no entries here. */
  function Entries(value: Json): (r: seq<(string, Json)>)
    ensures value.Arr? ==> |r| == |value.items|
  {
    match value
    case Obj(members) => Spread(members)
    case Arr(items) => seq(|items|, i requires 0 <= i < |items| => (NatText(i), items[i]))
    case _ => []
  }

  /** A value whose string form is neither empty nor `'null'` nor `'undefined'`. */
  predicate Kept(value: Json) {
    var s := JsString(value);
    s != "" && s != "null" && s != UndefinedText
  }

  /** One step of `normalizeStyles`: a whitelisted entry with a kept value is (re)assigned. */
  function StyleStep(acc: seq<(string, string)>, entry: (string, Json)): seq<(string, string)> {
    if entry.0 in ValidProperties && Kept(entry.1) then
      Assign(acc, entry.0, NormalizeColorValue(entry.0, JsString(entry.1)))
    else acc
  }

  /** The styles gathered from a run of entries, in order. */
  function StylesOf(entries: seq<(string, Json)>): seq<(string, string)> {
    if |entries| == 0 then []
    else StyleStep(StylesOf(entries[..|entries| - 1]), entries[|entries| - 1])
  }

  /** `normalizeStyles(styles)` as a value. */
  function NormalizedStyles(styles: Json): seq<(string, string)> {
    StylesOf(Entries(styles))
  }

  /** A style set whose every key is whitelisted and whose every value is kept. */
  predicate CleanStyles(styles: seq<(string, string)>) {
    forall i :: 0 <= i < |styles| ==>
      styles[i].0 in ValidProperties && styles[i].1 != "" && styles[i].1 != "null" && styles[i].1 != UndefinedText
  }

  /** The gathered styles hold only whitelisted keys with kept values. */
  lemma {:induction false} StylesOfClean(entries: seq<(string, Json)>)
    ensures CleanStyles(StylesOf(entries))
  {
    if |entries| > 0 {
      var e := entries[|entries| - 1];
      StylesOfClean(entries[..|entries| - 1]);
      if e.0 in ValidProperties && Kept(e.1) {
        AssignClean(StylesOf(entries[..|entries| - 1]), e.0, NormalizeColorValue(e.0, JsString(e.1)));
      }
    }
  }

  /** Some entry with this key has a kept value. */
  predicate Supplies(entries: seq<(string, Json)>, key: string) {
    exists i :: 0 <= i < |entries| && entries[i].0 == key && Kept(entries[i].1)
  }

  lemma {:induction false} SuppliesSnoc(entries: seq<(string, Json)>, key: string)
    requires |entries| > 0
    ensures Supplies(entries, key) <==>
      Supplies(entries[..|entries| - 1], key) || (entries[|entries| - 1].0 == key && Kept(entries[|entries| - 1].1))
  {
    var init := entries[..|entries| - 1];
    assert forall i :: 0 <= i < |init| ==> init[i] == entries[i];
    if Supplies(entries, key) {
      var i :| 0 <= i < |entries| && entries[i].0 == key && Kept(entries[i].1);
      if i < |init| {
        assert init[i] == entries[i];
      }
    }
  }

  /** A key is present in the gathered styles exactly when some whitelisted entry supplies it. */
  lemma {:induction false} StylesOfPresent(entries: seq<(string, Json)>, key: string)
    ensures Lookup(StylesOf(entries), key).Some? <==> key in ValidProperties && Supplies(entries, key)
  {
    if |entries| > 0 {
      var init := entries[..|entries| - 1];
      var e := entries[|entries| - 1];
      StylesOfPresent(init, key);
      SuppliesSnoc(entries, key);
      if e.0 in ValidProperties && Kept(e.1) {
        AssignLookup(StylesOf(init), e.0, NormalizeColorValue(e.0, JsString(e.1)), key);
      }
    }
  }

  /** A present key holds the normalised string form of the value of an entry that supplies it. */
  lemma {:induction false} StylesOfValue(entries: seq<(string, Json)>, key: string)
    requires Lookup(StylesOf(entries), key).Some?
    ensures exists i :: (0 <= i < |entries| && entries[i].0 == key && Kept(entries[i].1)
                         && Lookup(StylesOf(entries), key).value == NormalizeColorValue(key, JsString(entries[i].1)))
  {
    var init := entries[..|entries| - 1];
    var e := entries[|entries| - 1];
    var acc := StylesOf(init);
    var last := |entries| - 1;
    if e.0 in ValidProperties && Kept(e.1) {
      AssignLookup(acc, e.0, NormalizeColorValue(e.0, JsString(e.1)), key);
    }
    if e.0 == key && e.0 in ValidProperties && Kept(e.1) {
      assert entries[last].0 == key && Kept(entries[last].1);
    } else {
      StylesOfValue(init, key);
      var i :| 0 <= i < |init| && init[i].0 == key && Kept(init[i].1)
        && Lookup(acc, key).value == NormalizeColorValue(key, JsString(init[i].1));
      assert init[i] == entries[i];
    }
  }

  lemma {:induction false} AssignClean(acc: seq<(string, string)>, key: string, value: string)
    requires CleanStyles(acc)
    requires key in ValidProperties && value != "" && value != "null" && value != UndefinedText
    ensures CleanStyles(Assign(acc, key, value))
  {
  }

  /** An entry on which `normalizeStyles` throws: a whitelisted key whose value `String` rejects. */
  predicate EntryThrows(entry: (string, Json)) {
    entry.0 in ValidProperties && !Stringable(entry.1)
  }

  /** Some entry makes `normalizeStyles` throw. */
  predicate StylesThrow(entries: seq<(string, Json)>) {
    exists i :: 0 <= i < |entries| && EntryThrows(entries[i])
  }

  /**
   * `normalizeStyles(styles)`: walks the entries in order and assigns each whitelisted one whose
   * value is kept, mapped through `NormalizeColorValue`; it throws the `TypeError` of the first
   * whitelisted value that has no string form.
   */
  method NormalizeStyles(styles: Json) returns (r: Result<seq<(string, string)>, Thrown>)
    ensures r.Err? <==> StylesThrow(Entries(styles))
    ensures r.Err? ==> r.error == TypeError
    ensures r.Ok? ==> r.value == NormalizedStyles(styles) && CleanStyles(r.value)
  {
    r := GatherStyles(Entries(styles));
    StylesOfClean(Entries(styles));
  }

  /** The loop of `normalizeStyles` over the entries. */
  method GatherStyles(entries: seq<(string, Json)>) returns (r: Result<seq<(string, string)>, Thrown>)
    ensures r.Err? <==> StylesThrow(entries)
    ensures r.Err? ==> r.error == TypeError
    ensures r.Ok? ==> r.value == StylesOf(entries)
  {
    var normalized := [];
    var i := 0;
    while i < |entries|
      invariant 0 <= i <= |entries|
      invariant normalized == StylesOf(entries[..i])
      invariant forall k :: 0 <= k < i ==> !EntryThrows(entries[k])
    {
      StylesOfPrefix(entries, i);
      var step := AssignStyle(normalized, entries[i].0, entries[i].1);
      if step.Err? {
        assert EntryThrows(entries[i]);
        return step;
      }
      normalized := step.value;
      i := i + 1;
    }
    assert entries[..|entries|] == entries;
    assert !StylesThrow(entries);
    r := Ok(normalized);
  }

  lemma {:induction false} StylesOfPrefix(entries: seq<(string, Json)>, i: nat)
    requires i < |entries|
    ensures StylesOf(entries[..i + 1]) == StyleStep(StylesOf(entries[..i]), entries[i])
  {
    assert entries[..i + 1][..i] == entries[..i];
  }

  /** The body of `normalizeStyles`' loop for one entry. */
  method AssignStyle(normalized: seq<(string, string)>, key: string, value: Json)
    returns (r: Result<seq<(string, string)>, Thrown>)
    ensures r.Err? <==> EntryThrows((key, value))
    ensures r.Err? ==> r.error == TypeError
    ensures r.Ok? ==> r.value == StyleStep(normalized, (key, value))
  {
    if key !in ValidProperties {
      return Ok(normalized);
    }
    if !Stringable(value) {
      return Err(TypeError);
    }
    var s := JsString(value);
    if s != "" && s != "null" && s != UndefinedText {
      return Ok(Assign(normalized, key, NormalizeColorValue(key, s)));
    }
    r := Ok(normalized);
  }

  // ---------------------------------------------------------------------------
  // Changes

  /** `c.type` when it is `'style'` or `'text'`. */
  function KindOf(change: Json): Option<ChangeKind> {
    match Get(change, "type")
    case Some(Str(t)) => if t == "style" then Some(StyleChange) else if t == "text" then Some(TextChange) else None
    case _ => None
  }

  /** `(c.elementId as string) || defaultElementId`. */
  function TargetId(change: Json, defaultId: Option<string>): Option<Json> {
    if Truthy(Get(change, "elementId")) then Get(change, "elementId")
    else if defaultId.Some? then Some(Str(defaultId.value)) else None
  }

  /** The styles a change would carry: only a style change whose `styles` is an object has any. */
  function ChangeStyles(change: Json, kind: ChangeKind): Option<seq<(string, string)>> {
    var styles := Get(change, "styles");
    if kind == StyleChange && Truthy(styles) && IsObjectLike(styles.value) then Some(NormalizedStyles(styles.value))
    else None
  }

  /** The text a change would carry: only a text change whose `text` is a string has any. */
  function ChangeText(change: Json, kind: ChangeKind): Option<string> {
    match Get(change, "text")
    case Some(Str(t)) => if kind == TextChange then Some(t) else None
    case _ => None
  }

  /** `normalizeChange(change, defaultElementId)` as a value; `None` is `null`. */
  function NormalizedChange(change: Json, defaultId: Option<string>): (r: Option<VoiceChange>)
    ensures r.Some? ==> HasContent(r.value)
    ensures r.Some? ==> IsObjectLike(change) && KindOf(change) == Some(r.value.kind)
    ensures r.Some? ==> r.value.elementId == TargetId(change, defaultId)
  {
    if !IsObjectLike(change) || KindOf(change).None? then None
    else
      var kind := KindOf(change).value;
      var c := VoiceChange(kind, TargetId(change, defaultId), Get(change, "elementSelector"),
                           Get(change, "elementDescription"), ChangeStyles(change, kind), ChangeText(change, kind));
      if kind == StyleChange && (c.styles.None? || |c.styles.value| == 0) then None
      else if kind == TextChange && (c.text.None? || |c.text.value| == 0) then None
      else Some(c)
  }

  /**
   * A change survives exactly when it is an object whose type is `style` with an object of styles
   * that keeps at least one entry, or `text` with a non-empty string.
   */
  lemma {:induction false} NormalizedChangeKept(change: Json, defaultId: Option<string>)
    ensures NormalizedChange(change, defaultId).Some? <==>
      IsObjectLike(change) &&
      (  (Get(change, "type") == Some(Str("style")) && Get(change, "styles").Some?
          && IsObjectLike(Get(change, "styles").value) && |NormalizedStyles(Get(change, "styles").value)| > 0)
      || (Get(change, "type") == Some(Str("text")) && Get(change, "text").Some?
          && Get(change, "text").value.Str? && |Get(change, "text").value.s| > 0))
  {
  }

  /** A surviving style change carries only whitelisted properties with kept values. */
  lemma {:induction false} StyleChangeClean(change: Json, defaultId: Option<string>)
    requires NormalizedChange(change, defaultId).Some?
    requires NormalizedChange(change, defaultId).value.kind == StyleChange
    ensures CleanStyles(NormalizedChange(change, defaultId).value.styles.value)
  {
    StylesOfClean(Entries(Get(change, "styles").value));
  }

  /** A change on which `normalizeChange` throws: a style change whose styles make `normalizeStyles` throw. */
  predicate ChangeThrows(change: Json) {
    var styles := Get(change, "styles");
    IsObjectLike(change) && KindOf(change) == Some(StyleChange) && Truthy(styles) && IsObjectLike(styles.value)
    && StylesThrow(Entries(styles.value))
  }

  /**
   * `normalizeChange`: builds the change field by field and drops it if it has no content; the
   * `TypeError` of `normalizeStyles` passes through.
   */
  method NormalizeChange(change: Json, defaultId: Option<string>) returns (r: Result<Option<VoiceChange>, Thrown>)
    ensures r.Err? <==> ChangeThrows(change)
    ensures r.Err? ==> r.error == TypeError
    ensures r.Ok? ==> r.value == NormalizedChange(change, defaultId)
  {
    if !IsObjectLike(change) {
      return Ok(None);
    }
    var kind := KindOf(change);
    if kind.None? {
      return Ok(None);
    }
    var normalized := VoiceChange(kind.value, TargetId(change, defaultId), Get(change, "elementSelector"),
                                  Get(change, "elementDescription"), None, None);
    var styles := Get(change, "styles");
    if kind.value == StyleChange && Truthy(styles) && IsObjectLike(styles.value) {
      var s := NormalizeStyles(styles.value);
      if s.Err? {
        return Err(s.error);
      }
      normalized := normalized.(styles := Some(s.value));
    }
    var text := Get(change, "text");
    if kind.value == TextChange && text.Some? && text.value.Str? {
      normalized := normalized.(text := Some(text.value.s));
    }
    if kind.value == StyleChange && (normalized.styles.None? || |normalized.styles.value| == 0) {
      return Ok(None);
    }
    if kind.value == TextChange && (normalized.text.None? || |normalized.text.value| == 0) {
      return Ok(None);
    }
    r := Ok(Some(normalized));
  }

  // ---------------------------------------------------------------------------
  // Replies

  /** The changes kept from the reply's `changes` items, in order. */
  function KeptChanges(items: seq<Json>, defaultId: Option<string>): (r: seq<VoiceChange>)
    ensures |r| <= |items|
    ensures forall c :: c in r ==> HasContent(c)
  {
    if |items| == 0 then []
    else
      var prefix := KeptChanges(items[..|items| - 1], defaultId);
      match NormalizedChange(items[|items| - 1], defaultId)
      case Some(c) => prefix + [c]
      case None => prefix
  }

  /** Every item that normalises to a change contributes it: an item survives or is dropped alone. */
  lemma {:induction false} KeptChangesAppend(items: seq<Json>, more: seq<Json>, defaultId: Option<string>)
    ensures KeptChanges(items + more, defaultId) == KeptChanges(items, defaultId) + KeptChanges(more, defaultId)
    decreases |more|
  {
    if |more| == 0 {
      assert items + more == items;
    } else {
      var last := more[|more| - 1];
      assert (items + more)[..|items + more| - 1] == items + more[..|more| - 1];
      KeptChangesAppend(items, more[..|more| - 1], defaultId);
    }
  }

  lemma {:induction false} KeptChangesSnoc(items: seq<Json>, i: nat, defaultId: Option<string>)
    requires i < |items|
    ensures KeptChanges(items[..i + 1], defaultId) ==
      KeptChanges(items[..i], defaultId) + match NormalizedChange(items[i], defaultId) case Some(c) => [c] case None => []
  {
    assert items[..i + 1][..i] == items[..i];
  }

  /** The reply's `changes` items, when it is an array. */
  function ChangeItems(parsed: Json): seq<Json> {
    match Get(parsed, "changes")
    case Some(Arr(items)) => items
    case _ => []
  }

  /** The response a parsed reply gives, with the given changes, when reading it does not throw. */
  function Reply(parsed: Json, changes: seq<VoiceChange>): (r: VoiceResponse)
    ensures r.changes == changes && r.error.None?
    ensures Get(parsed, "understood") == Some(Bool(true)) ==> r.understood
    ensures !Truthy(Get(parsed, "understood")) ==> !r.understood
    ensures forall s :: Get(parsed, "interpretation") == Some(Str(s)) && s != "" ==> r.interpretation == s
    ensures !Truthy(Get(parsed, "interpretation")) ==> r.interpretation == "Unable to interpret the command"
    ensures r.clarificationNeeded.Some? ==> Truthy(r.clarificationNeeded)
    ensures r.suggestions.Some? <==> Get(parsed, "suggestions").Some? && Get(parsed, "suggestions").value.Arr?
  {
    var interpretation := Get(parsed, "interpretation");
    var clarification := Get(parsed, "clarificationNeeded");
    VoiceResponse(
      Truthy(Get(parsed, "understood")),
      if Truthy(interpretation) then JsString(interpretation.value) else "Unable to interpret the command",
      changes,
      if Truthy(clarification) then clarification else None,
      match Get(parsed, "suggestions") case Some(Arr(items)) => Some(items) case _ => None,
      None)
  }

  /** Reading the reply throws: its `interpretation` is truthy but has no string form. */
  predicate ReplyThrows(parsed: Json) {
    var interpretation := Get(parsed, "interpretation");
    Truthy(interpretation) && !Stringable(interpretation.value)
  }

  /** Some item makes `normalizeChange` throw. */
  predicate ChangesThrow(items: seq<Json>) {
    |items| > 0 && (ChangesThrow(items[..|items| - 1]) || ChangeThrows(items[|items| - 1]))
  }

  /**
   * `parseResponse(content, elementId)` as a value. Everything thrown inside it lands in the parse
   * failure: reading a property of `null`, and `String` of a value with no string form.
   */
  function ParsedResponse(content: string, elementId: Option<string>, parse: string -> Option<Json>): (r: VoiceResponse)
    ensures r == ParseFailure <==>
      parse(content).None? || parse(content) == Some(Null)
      || ReplyThrows(parse(content).value) || ChangesThrow(ChangeItems(parse(content).value))
    ensures r != ParseFailure ==> r.error.None? && |r.changes| <= |ChangeItems(parse(content).value)|
    ensures forall c :: c in r.changes ==> HasContent(c)
  {
    var parsed := parse(content);
    if parsed.None? || parsed.value.Null? || ReplyThrows(parsed.value) || ChangesThrow(ChangeItems(parsed.value))
    then ParseFailure
    else Reply(parsed.value, KeptChanges(ChangeItems(parsed.value), elementId))
  }

  /**
   * `parseResponse`: parses the reply, reads its fields, and pushes every change that survives
   * normalisation; whatever throws on the way is answered with the parse failure.
   */
  method ParseResponse(content: string, elementId: Option<string>, parse: string -> Option<Json>)
    returns (r: VoiceResponse)
    ensures r == ParsedResponse(content, elementId, parse)
  {
    var parsed := parse(content);
    if parsed.None? || parsed.value.Null? {
      return ParseFailure;
    }
    var p := parsed.value;
    if ReplyThrows(p) {
      return ParseFailure;
    }
    r := Reply(p, []);
    var changes := Get(p, "changes");
    if changes.Some? && changes.value.Arr? {
      var kept := NormalizeChanges(changes.value.items, elementId);
      if kept.Err? {
        return ParseFailure;
      }
      r := r.(changes := kept.value);
    }
    ReplyChanges(p, r.changes);
  }

  /**
   * The loop of `parseResponse`: every item that normalises to a change is pushed, in order; the
   * first item that throws stops it.
   */
  method NormalizeChanges(items: seq<Json>, elementId: Option<string>) returns (r: Result<seq<VoiceChange>, Thrown>)
    ensures r.Err? <==> ChangesThrow(items)
    ensures r.Err? ==> r.error == TypeError
    ensures r.Ok? ==> r.value == KeptChanges(items, elementId)
  {
    var kept := [];
    var i := 0;
    while i < |items|
      invariant 0 <= i <= |items|
      invariant kept == KeptChanges(items[..i], elementId)
      invariant !ChangesThrow(items[..i])
    {
      var pushed := PushChange(items, i, kept, elementId);
      if pushed.Err? {
        ChangesThrowExtends(items, i + 1);
        return pushed;
      }
      kept := pushed.value;
      i := i + 1;
    }
    assert items[..|items|] == items;
    r := Ok(kept);
  }

  /** An item that throws makes every longer run of items throw. */
  lemma {:induction false} ChangesThrowExtends(items: seq<Json>, n: nat)
    requires n <= |items| && ChangesThrow(items[..n])
    ensures ChangesThrow(items)
    decreases |items| - n
  {
    if n < |items| {
      assert items[..n + 1][..n] == items[..n];
      ChangesThrowExtends(items, n + 1);
    } else {
      assert items[..n] == items;
    }
  }

  /** The body of `parseResponse`' loop for one item. */
  method PushChange(items: seq<Json>, i: nat, kept: seq<VoiceChange>, elementId: Option<string>)
    returns (r: Result<seq<VoiceChange>, Thrown>)
    requires i < |items| && kept == KeptChanges(items[..i], elementId) && !ChangesThrow(items[..i])
    ensures r.Err? <==> ChangeThrows(items[i])
    ensures r.Err? <==> ChangesThrow(items[..i + 1])
    ensures r.Err? ==> r.error == TypeError
    ensures r.Ok? ==> r.value == KeptChanges(items[..i + 1], elementId)
  {
    KeptChangesSnoc(items, i, elementId);
    assert items[..i + 1][..i] == items[..i];
    var c := NormalizeChange(items[i], elementId);
    if c.Err? {
      return Err(c.error);
    }
    if c.value.Some? {
      return Ok(kept + [c.value.value]);
    }
    r := Ok(kept);
  }

  /** A reply read with no changes, then given some, is the reply read with those changes. */
  lemma {:induction false} ReplyChanges(parsed: Json, changes: seq<VoiceChange>)
    ensures Reply(parsed, []).(changes := changes) == Reply(parsed, changes)
  {
  }

  // ---------------------------------------------------------------------------
  // The processor

  /** The element the request says is selected. */
  datatype ElementInfo = ElementInfo(
    id: string, tagName: string, textContent: Option<string>,
    computedStyles: Option<VoicePrompts.ComputedStyles>)

  datatype VoiceRequest = VoiceRequest(
    transcript: string, selectedElement: Option<ElementInfo>, pageContext: VoicePrompts.PageContext)

  /** The processor's configuration; `None` is an absent field. */
  datatype ProcessorConfig = ProcessorConfig(maxTokens: Option<real>, temperature: Option<real>)

  /** A chat message: the fixed system prompt, or the user's prompt. */
  datatype Message = SystemPrompt | User(content: string)

  /** What `process` hands to the provider. */
  datatype CompletionRequest = CompletionRequest(
    messages: seq<Message>, maxTokens: real, temperature: real, jsonMode: bool)

  /** `!transcript || transcript.trim().length === 0`. */
  predicate Blank(transcript: string) {
    |Trim(transcript)| == 0
  }

  /** A command is blank exactly when it is empty or made only of white space. */
  lemma {:induction false} BlankMeaning(transcript: string)
    ensures Blank(transcript) <==> forall i :: 0 <= i < |transcript| ==> IsWhiteSpace(transcript[i])
  {
    TrimEmptyIffBlank(transcript);
  }

  /** The prompt's view of the selected element. */
  function PromptElementOf(e: Option<ElementInfo>): Option<VoicePrompts.PromptElement> {
    match e
    case Some(info) => Some(VoicePrompts.PromptElement(info.tagName, info.textContent, info.computedStyles))
    case None => None
  }

  /** `selectedElement?.id`. */
  function SelectedId(e: Option<ElementInfo>): Option<string> {
    match e
    case Some(info) => Some(info.id)
    case None => None
  }

  /** What `process` answers once the provider has replied or thrown. */
  function Answer(outcome: Result<ChangeAnalyzer.Completion, Thrown>, elementId: Option<string>,
                  parse: string -> Option<Json>): VoiceResponse
  {
    match outcome
    case Err(e) => ProcessFailure(e)
    case Ok(reply) => ParsedResponse(reply.content, elementId, parse)
  }

  class VoiceIntentProcessor {
    var maxTokens: real
    var temperature: real

    /** `maxTokens` falls back to 1000 when absent or zero, `temperature` to 0.3 when absent. */
    constructor(config: ProcessorConfig)
      ensures maxTokens == (if config.maxTokens.Some? && config.maxTokens.value != 0.0
                            then config.maxTokens.value else 1000.0)
      ensures temperature == config.temperature.GetOr(0.3)
    {
      maxTokens := if config.maxTokens.Some? && config.maxTokens.value != 0.0 then config.maxTokens.value else 1000.0;
      temperature := config.temperature.GetOr(0.3);
    }

    /**
     * The request `process` sends for a command: the system prompt and then the user's prompt,
     * which for a plain request is the expected voice prompt, with this processor's limits and
     * JSON mode on.
     */
    ghost predicate Asked(request: VoiceRequest, call: CompletionRequest)
      reads this
    {
      && |call.messages| == 2 && call.messages[0] == SystemPrompt && call.messages[1].User?
      && call.maxTokens == maxTokens && call.temperature == temperature && call.jsonMode
      && VoicePrompts.PromptFor(request.transcript, PromptElementOf(request.selectedElement),
                                Some(request.pageContext), call.messages[1].content)
    }

    /**
     * `process(request)`: a blank command is answered without calling the provider; otherwise the
     * prompt is built and sent, and the reply is parsed, or the thrown error reported. `sent` is
     * the request the provider saw.
     */
    method Process(request: VoiceRequest, complete: CompletionRequest -> Result<ChangeAnalyzer.Completion, Thrown>,
                   parse: string -> Option<Json>)
      returns (r: VoiceResponse, ghost sent: Option<CompletionRequest>)
      ensures Blank(request.transcript) ==> r == NoCommand && sent.None?
      ensures !Blank(request.transcript) ==>
        sent.Some? && Asked(request, sent.value) && r == Answer(complete(sent.value), SelectedId(request.selectedElement), parse)
    {
      if Blank(request.transcript) {
        return NoCommand, None;
      }
      var userPrompt := VoicePrompts.BuildVoicePrompt(request.transcript, PromptElementOf(request.selectedElement),
                                                      Some(request.pageContext));
      var call := CompletionRequest([SystemPrompt, User(userPrompt)], maxTokens, temperature, true);
      sent := Some(call);
      var response := complete(call);
      if response.Err? {
        return ProcessFailure(response.error), sent;
      }
      r := ParseResponse(response.value.content, SelectedId(request.selectedElement), parse);
    }
  }
}
