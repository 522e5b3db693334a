/**
 * The values `JSON.parse` produces, and the JavaScript operations the core applies to them:
 * property lookup, own-key enumeration, truthiness and `String(value)`.
 * An object keeps its members in source order, as `Records` describes.
 */
module Json {
  import opened Wrappers
  import opened JsStrings
  import opened Records

  datatype Json =
    | Null
    | Bool(b: bool)
    | Num(n: real)
    | Str(s: string)
    | Arr(items: seq<Json>)
    | Obj(members: seq<(string, Json)>)

  /** `value[key]` for a parsed value: only objects have properties here. */
  function Get(value: Json, key: string): Option<Json> {
    if value.Obj? then Lookup(value.members, key) else None
  }

  /** JavaScript truthiness; `None` (undefined) is falsy. */
  predicate Truthy(v: Option<Json>) {
    match v
    case None => false
    case Some(Null) => false
    case Some(Bool(b)) => b
    case Some(Num(n)) => n != 0.0
    case Some(Str(s)) => |s| > 0
    case Some(_) => true
  }

  /** `typeof value === 'object' && value !== null`: arrays and objects. */
  predicate IsObjectLike(v: Json) {
    v.Arr? || v.Obj?
  }

  /**
   * Whether `String(value)` returns rather than throws. An object with an own `toString` member
   * throws a `TypeError`: a parsed member is never callable, so the conversion falls back to the
   * inherited `valueOf`, which returns the object itself, not a primitive. An array converts by
   * joining its elements, so it throws exactly when one of them does.
   */
  predicate Stringable(v: Json) {
    match v
    case Obj(members) => Lookup(members, "toString").None?
    case Arr(items) => forall i :: 0 <= i < |items| ==> Stringable(items[i])
    case _ => true
  }

  /** `String(value)`, for a value on which it does not throw (`Stringable`). */
  function JsString(v: Json): (r: string)
    decreases v, if v.Arr? then |v.items| + 1 else 0
  {
    match v
    case Null => "null"
    case Bool(b) => if b then "true" else "false"
    case Num(n) => NumberText(n)
    case Str(s) => s
    case Arr(items) => JoinItems(v, |items|)
    case Obj(_) => "[object Object]"
  }

  /** `items.slice(0, n).join(',')`, where `null` elements contribute the empty string. */
  function JoinItems(v: Json, n: nat): string
    requires v.Arr? && n <= |v.items|
    decreases v, n
  {
    if n == 0 then ""
    else
      var last := if v.items[n - 1].Null? then "" else JsString(v.items[n - 1]);
      if n == 1 then last else JoinItems(v, n - 1) + "," + last
  }

  /** The string `undefined` turns into under `String(value)`. */
  const UndefinedText := "undefined"

  /** `String(value)` where the value may be `undefined`. */
  function OptString(v: Option<Json>): string {
    if v.Some? then JsString(v.value) else UndefinedText
  }

  /**
   * The number an arithmetic operator makes of a value; `None` is NaN. Every string, array and
   * object is taken as NaN here: the conversions JavaScript makes of numeric strings (`"5"` to 5)
   * and of arrays of at most one number (`[]` to 0) are not modelled.
   */
  function ToNumber(v: Option<Json>): (r: Option<real>)
    ensures v.Some? && v.value.Num? ==> r == Some(v.value.n)
    ensures v.None? ==> r.None?
  {
    match v
    case None => None
    case Some(Null) => Some(0.0)
    case Some(Bool(b)) => Some(if b then 1.0 else 0.0)
    case Some(Num(n)) => Some(n)
    case Some(_) => None
  }

  // ---------------------------------------------------------------------------
  // Exceptions

  /** A thrown value: an `Error` carrying its message, or some other value. */
  datatype Thrown = ErrorWith(message: string) | NonError

  /** `error instanceof Error ? error.message : 'Unknown error'`. */
  function ErrorMessage(t: Thrown): string {
    if t.ErrorWith? then t.message else "Unknown error"
  }

  /**
   * The error raised by reading a property of `null` or `undefined`, or by iterating a value
   * that is not iterable (its engine-specific message text is not modelled).
   */
  const TypeError := ErrorWith("TypeError")
}
