/**
 * The extension's shared helpers for colours, sizes, times and font labels: `rgbToHex` and
 * `hexToRgb`, `parseFontSize` and `parseSpacing`, `formatRelativeTime` (with the current time as
 * a parameter) and the font weight and family labels. Regular expressions are written out as
 * the matchers they denote.
 */
module SharedUtils {
  import opened Wrappers
  import opened JsStrings
  import opened Records

  // ---------------------------------------------------------------------------
  // rgbToHex

  /** The three digit groups the colour pattern captures. */
  datatype RgbGroups = RgbGroups(r: string, g: string, b: string)

  predicate AllDigits(s: string) {
    forall i :: 0 <= i < |s| ==> IsDigit(s[i])
  }

  /** The text after the opening `rgb(` or `rgba(`, if the string starts with either. */
  function AfterRgbOpen(s: string): Option<string> {
    if StartsWith(s, "rgb(") then Some(s[4..])
    else if StartsWith(s, "rgba(") then Some(s[5..])
    else None
  }

  /** A nonempty run of digits and the text after the comma that must follow it (`(\d+),`). */
  function DigitsComma(t: string): (m: Option<(string, string)>)
    ensures m.Some? ==> |m.value.0| > 0 && AllDigits(m.value.0)
  {
    var d := DigitPrefix(t);
    if |d| == 0 || |d| == |t| || t[|d|] != ',' then None else Some((d, t[|d| + 1..]))
  }

  /** `(\d+),\s*(\d+)` after the first comma: the second and third digit runs. */
  function LastComponents(t: string): (m: Option<(string, string)>)
    ensures m.Some? ==> |m.value.0| > 0 && AllDigits(m.value.0) && |m.value.1| > 0 && AllDigits(m.value.1)
  {
    match DigitsComma(t)
    case None => None
    case Some((g, v)) =>
      var b := DigitPrefix(TrimStart(v));
      if |b| == 0 then None else Some((g, b))
  }

  /**
   * The pattern `^rgba?\((\d+),\s*(\d+),\s*(\d+)`: `rgb(` or `rgba(`, then three runs of digits,
   * the first two each followed by a comma and optional white space. Nothing after the third run
   * is looked at.
   */
  function MatchRgb(s: string): (m: Option<RgbGroups>)
    ensures m.Some? ==> |m.value.r| > 0 && |m.value.g| > 0 && |m.value.b| > 0
    ensures m.Some? ==> AllDigits(m.value.r) && AllDigits(m.value.g) && AllDigits(m.value.b)
  {
    match AfterRgbOpen(s)
    case None => None
    case Some(t) =>
      match DigitsComma(t)
      case None => None
      case Some((r, u)) =>
        match LastComponents(TrimStart(u))
        case None => None
        case Some((g, b)) => Some(RgbGroups(r, g, b))
  }

  /** `n.toString(16).padStart(2, '0')`. */
  function Hex2(n: nat): string {
    PadStart2(HexText(n))
  }

  /** `'#' + r + g + b` with each component as two hex digits. */
  function HexColor(r: nat, g: nat, b: nat): string {
    "#" + Hex2(r) + Hex2(g) + Hex2(b)
  }

  /** `rgbToHex(rgb)`: a matching colour becomes `#` and two hex digits per component, upper case. */
  function RgbToHex(rgb: string): (r: string)
    ensures MatchRgb(rgb).None? ==> r == rgb
    ensures MatchRgb(rgb).Some? ==> |r| > 0 && r[0] == '#'
  {
    match MatchRgb(rgb)
    case None => rgb
    case Some(m) =>
      var text := HexColor(DigitsValue(m.r), DigitsValue(m.g), DigitsValue(m.b));
      assert text[0] == '#';
      ToUpper(text)
  }

  /** Two hex digits whose value is the byte, written in upper case. */
  predicate IsByteHex(s: string, n: nat) {
    |s| == 2 && IsHexDigit(s[0]) && IsHexDigit(s[1]) && 16 * HexDigitValue(s[0]) + HexDigitValue(s[1]) == n
    && (IsDigit(s[0]) || 'A' <= s[0] <= 'F') && (IsDigit(s[1]) || 'A' <= s[1] <= 'F')
  }

  lemma {:induction false} Hex2Byte(n: nat)
    requires n < 256
    ensures IsByteHex(Hex2(n), n)
  {
    if n >= 16 {
      var h := HexText(n / 16) + [HexDigitChar(n % 16)];
      assert HexText(n) == h;
      assert HexText(n / 16) == [HexDigitChar(n / 16)];
    }
  }

  predicate NoLower(s: string) {
    forall i :: 0 <= i < |s| ==> !('a' <= s[i] <= 'z')
  }

  /** A string with no lower-case ASCII letter is its own upper case. */
  lemma {:induction false} UpperOfUpper(s: string)
    requires NoLower(s)
    ensures ToUpper(s) == s
  {
  }

  lemma {:induction false} HexColorBytes(r: nat, g: nat, b: nat)
    requires r < 256 && g < 256 && b < 256
    ensures var h := HexColor(r, g, b);
      |h| == 7 && h[0] == '#' && IsByteHex(h[1..3], r) && IsByteHex(h[3..5], g) && IsByteHex(h[5..7], b)
    ensures ToUpper(HexColor(r, g, b)) == HexColor(r, g, b)
  {
    Hex2Byte(r);
    Hex2Byte(g);
    Hex2Byte(b);
    var x, y, z := Hex2(r), Hex2(g), Hex2(b);
    var h := HexColor(r, g, b);
    assert h == ['#', x[0], x[1], y[0], y[1], z[0], z[1]];
    assert h[1..3] == x && h[3..5] == y && h[5..7] == z;
    UpperOfUpper(h);
  }

  /**
   * For components up to 255 the result is exactly `#` and two upper-case hex digits per
   * component, whose values are the components.
   */
  lemma {:induction false} RgbToHexBytes(rgb: string)
    requires MatchRgb(rgb).Some?
    requires var m := MatchRgb(rgb).value; DigitsValue(m.r) < 256 && DigitsValue(m.g) < 256 && DigitsValue(m.b) < 256
    ensures var m := MatchRgb(rgb).value;
      var r := RgbToHex(rgb);
      |r| == 7 && r[0] == '#' && IsByteHex(r[1..3], DigitsValue(m.r)) && IsByteHex(r[3..5], DigitsValue(m.g))
      && IsByteHex(r[5..7], DigitsValue(m.b))
  {
    var m := MatchRgb(rgb).value;
    HexColorBytes(DigitsValue(m.r), DigitsValue(m.g), DigitsValue(m.b));
  }

  // ---------------------------------------------------------------------------
  // hexToRgb

  datatype Rgb = Rgb(r: nat, g: nat, b: nat)

  /** `parseInt(pair, 16)` for two hex digits. */
  function PairValue(a: char, b: char): (v: nat)
    requires IsHexDigit(a) && IsHexDigit(b)
    ensures v < 256
  {
    16 * HexDigitValue(a) + HexDigitValue(b)
  }

  /** The text after an optional leading `#`. */
  function WithoutHash(hex: string): string {
    if |hex| > 0 && hex[0] == '#' then hex[1..] else hex
  }

  /**
   * `hexToRgb(hex)`: the pattern `^#?([a-f\d]{2})([a-f\d]{2})([a-f\d]{2})$`, case-insensitive, read
   * as three bytes; anything else is `null` (`None`).
   */
  function HexToRgb(hex: string): (r: Option<Rgb>)
    ensures r.Some? ==> r.value.r < 256 && r.value.g < 256 && r.value.b < 256
  {
    var d := WithoutHash(hex);
    if |d| == 6 && forall i :: 0 <= i < 6 ==> IsHexDigit(d[i]) then
      Some(Rgb(PairValue(d[0], d[1]), PairValue(d[2], d[3]), PairValue(d[4], d[5])))
    else None
  }

  /** Exactly six hex digits, with or without a leading `#`, are accepted; nothing else is. */
  lemma {:induction false} HexToRgbAccepts(hex: string)
    ensures HexToRgb(hex).Some? <==>
      (|hex| == 6 && forall i :: 0 <= i < 6 ==> IsHexDigit(hex[i]))
      || (|hex| == 7 && hex[0] == '#' && forall i :: 1 <= i < 7 ==> IsHexDigit(hex[i]))
  {
    if |hex| == 7 && hex[0] == '#' {
      assert forall i :: 0 <= i < 6 ==> WithoutHash(hex)[i] == hex[i + 1];
    }
  }

  /** The letters of a hex colour may be in either case. */
  lemma {:induction false} HexToRgbIgnoresCase(hex: string)
    ensures HexToRgb(ToLower(hex)) == HexToRgb(hex)
  {
    var d, e := WithoutHash(hex), WithoutHash(ToLower(hex));
    assert |d| == |e| && forall i :: 0 <= i < |d| ==> e[i] == LowerChar(d[i]);
  }

  /** `"rgb(r, g, b)"`, as the browser writes a computed colour. */
  function RgbText(c: Rgb): string {
    "rgb(" + NatText(c.r) + ", " + NatText(c.g) + ", " + NatText(c.b) + ")"
  }

  /** A digit run, a comma and the rest: the run is read, and the rest follows the comma. */
  lemma {:induction false} DigitsCommaOf(d: string, rest: string)
    requires |d| > 0 && AllDigits(d)
    ensures DigitsComma(d + "," + rest) == Some((d, rest))
  {
    var t := d + ("," + rest);
    assert d + "," + rest == t;
    DigitPrefixOfDigits(d, "," + rest);
    assert t[|d|] == ',' && t[|d| + 1..] == rest;
  }

  /** One space before a digit is all that `\s*` skips. */
  lemma {:induction false} SpaceSkipped(d: string)
    requires |d| > 0 && IsDigit(d[0])
    ensures TrimStart(" " + d) == d
  {
    assert (" " + d)[1..] == d;
  }

  lemma {:induction false} LastComponentsOf(g: string, b: string)
    requires |g| > 0 && AllDigits(g) && |b| > 0 && AllDigits(b)
    ensures LastComponents(g + ", " + b + ")") == Some((g, b))
  {
    var v := " " + (b + ")");
    assert g + ", " + b + ")" == g + "," + v;
    DigitsCommaOf(g, v);
    SpaceSkipped(b + ")");
    DigitPrefixOfDigits(b, ")");
  }

  /** `rgb(r, g, b)` with three digit runs matches, capturing the runs. */
  lemma {:induction false} MatchRgbOf(r: string, g: string, b: string)
    requires |r| > 0 && AllDigits(r) && |g| > 0 && AllDigits(g) && |b| > 0 && AllDigits(b)
    ensures MatchRgb("rgb(" + r + ", " + g + ", " + b + ")") == Some(RgbGroups(r, g, b))
  {
    var w := g + ", " + b + ")";
    var u := " " + w;
    var t := r + "," + u;
    var s := "rgb(" + r + ", " + g + ", " + b + ")";
    assert s == "rgb(" + t;
    assert AfterRgbOpen(s) == Some(t) by {
      assert s[..4] == "rgb(" && s[4..] == t;
    }
    DigitsCommaOf(r, u);
    SpaceSkipped(w);
    LastComponentsOf(g, b);
  }

  lemma {:induction false} MatchRgbText(c: Rgb)
    ensures MatchRgb(RgbText(c)) == Some(RgbGroups(NatText(c.r), NatText(c.g), NatText(c.b)))
  {
    MatchRgbOf(NatText(c.r), NatText(c.g), NatText(c.b));
  }

  /** `#RRGGBB` written from three bytes reads back as those bytes. */
  lemma {:induction false} HexColorRead(r: nat, g: nat, b: nat)
    requires r < 256 && g < 256 && b < 256
    ensures HexToRgb(HexColor(r, g, b)) == Some(Rgb(r, g, b))
  {
    HexColorBytes(r, g, b);
    var h := HexColor(r, g, b);
    var d := WithoutHash(h);
    assert d == h[1..];
    assert d[0] == h[1..3][0] && d[1] == h[1..3][1];
    assert d[2] == h[3..5][0] && d[3] == h[3..5][1];
    assert d[4] == h[5..7][0] && d[5] == h[5..7][1];
  }

  /** A computed colour with byte components comes back from `hexToRgb(rgbToHex(...))` unchanged. */
  lemma {:induction false} RgbHexRoundTrip(c: Rgb)
    requires c.r < 256 && c.g < 256 && c.b < 256
    ensures HexToRgb(RgbToHex(RgbText(c))) == Some(c)
  {
    MatchRgbText(c);
    NatTextValue(c.r);
    NatTextValue(c.g);
    NatTextValue(c.b);
    assert RgbToHex(RgbText(c)) == ToUpper(HexColor(c.r, c.g, c.b));
    HexColorBytes(c.r, c.g, c.b);
    HexColorRead(c.r, c.g, c.b);
  }

  // ---------------------------------------------------------------------------
  // Sizes

  /** `parseInt(value.replace('px', ''), 10)`. */
  function PixelValue(value: string): Option<int> {
    ParseInt(ReplaceFirst(value, "px", ""))
  }

  /** `parseFontSize(fontSize)`: the pixel value, or 16 when it is not a number or is 0. */
  function ParseFontSize(fontSize: string): (r: int)
    ensures r != 0
    ensures PixelValue(fontSize).Some? && PixelValue(fontSize).value != 0 ==> r == PixelValue(fontSize).value
    ensures PixelValue(fontSize) == Some(0) ==> r == 16
    ensures PixelValue(fontSize).None? ==> r == 16
  {
    match PixelValue(fontSize)
    case Some(n) => if n != 0 then n else 16
    case None => 16
  }

  /** `parseSpacing(value)`: the pixel value, or 0 when it is not a number. */
  function ParseSpacing(value: string): (r: int)
    ensures PixelValue(value).Some? ==> r == PixelValue(value).value
    ensures PixelValue(value).None? ==> r == 0
  {
    match PixelValue(value)
    case Some(n) => n
    case None => 0
  }

  /** A size written as a whole number of pixels reads back as that number. */
  lemma {:induction false} PixelsRead(n: nat)
    ensures PixelValue(NatText(n) + "px") == Some(n)
  {
    var d := NatText(n);
    var s := d + "px";
    var k := IndexOf(s, "px");
    assert OccursAt(s, "px", |d|) by {
      assert s[|d|..|d| + 2] == "px";
    }
    assert k >= |d| by {
      assert s[k] == 'p';
      assert forall j :: 0 <= j < |d| ==> s[j] == d[j];
    }
    assert s[..k] == d;
    assert ReplaceFirst(s, "px", "") == d by {
      assert s[k + 2..] == "";
      assert d + "" + "" == d;
    }
    NatTextParses(n);
  }

  /** Whole pixel sizes read back exactly, except that a font size of 0 becomes 16. */
  lemma {:induction false} PixelSizesRead(n: nat)
    ensures ParseSpacing(NatText(n) + "px") == n
    ensures ParseFontSize(NatText(n) + "px") == if n == 0 then 16 else n
  {
    PixelsRead(n);
  }

  // ---------------------------------------------------------------------------
  // Relative time

  /** What `formatRelativeTime` returns: a relative phrase, or a calendar date for older times. */
  datatype RelativeTime = Phrase(text: string) | CalendarDate(timestamp: real)

  function Plural(n: int): string {
    if n > 1 then "s" else ""
  }

  /** The whole units elapsed, as `formatRelativeTime` counts them, each floored from the last. */
  function SecondsOf(diff: real): int { (diff / 1000.0).Floor }
  function MinutesOf(diff: real): int { (SecondsOf(diff) as real / 60.0).Floor }
  function HoursOf(diff: real): int { (MinutesOf(diff) as real / 60.0).Floor }
  function DaysOf(diff: real): int { (HoursOf(diff) as real / 24.0).Floor }

  /** The unit `formatRelativeTime` reports an elapsed time in, with its count. */
  datatype Elapsed = Seconds(count: int) | Minutes(count: int) | Hours(count: int) | Days(count: int) | Older

  /** The first unit whose count is below its limit: 60 seconds, 60 minutes, 24 hours, 7 days. */
  function ElapsedOf(diff: real): Elapsed {
    if SecondsOf(diff) < 60 then Seconds(SecondsOf(diff))
    else if MinutesOf(diff) < 60 then Minutes(MinutesOf(diff))
    else if HoursOf(diff) < 24 then Hours(HoursOf(diff))
    else if DaysOf(diff) < 7 then Days(DaysOf(diff))
    else Older
  }

  /** `formatRelativeTime(timestamp)` at time `now` (both in milliseconds). */
  function FormatRelativeTime(now: real, timestamp: real): RelativeTime {
    match ElapsedOf(now - timestamp)
    case Seconds(n) => Phrase(IntText(n) + " seconds ago")
    case Minutes(n) => Phrase(IntText(n) + " min. ago")
    case Hours(n) => Phrase(IntText(n) + " hour" + Plural(n) + " ago")
    case Days(n) => Phrase(IntText(n) + " day" + Plural(n) + " ago")
    case Older => CalendarDate(timestamp)
  }

  /** Scaling by a positive factor keeps a number between its floor and the next integer, scaled. */
  lemma {:induction false} FloorScaled(z: real, m: real)
    requires m > 0.0
    ensures z.Floor as real * m <= z * m < (z.Floor as real + 1.0) * m
  {
    var q := z.Floor as real;
    assert (z - q) * m >= 0.0;
    assert (q + 1.0 - z) * m > 0.0;
  }

  /** Flooring, then dividing by 60 or 24 and flooring again, is dividing and flooring once. */
  lemma {:induction false} FloorTwice(y: real, k: real)
    requires k == 60.0 || k == 24.0
    ensures (y.Floor as real / k).Floor == (y / k).Floor
  {
    var z := y / k;
    var q, f := z.Floor, y.Floor;
    FloorScaled(z, k);
    if k == 60.0 {
      assert z * 60.0 == y;
      assert (q * 60) as real <= y < ((q + 1) * 60) as real;
      assert q * 60 <= f < (q + 1) * 60;
    } else {
      assert z * 24.0 == y;
      assert (q * 24) as real <= y < ((q + 1) * 24) as real;
      assert q * 24 <= f < (q + 1) * 24;
    }
  }

  /** Each unit count is the elapsed time divided by the unit's length in milliseconds, floored. */
  lemma {:induction false} UnitsOf(diff: real)
    ensures MinutesOf(diff) == (diff / 60000.0).Floor
    ensures HoursOf(diff) == (diff / 3600000.0).Floor
    ensures DaysOf(diff) == (diff / 86400000.0).Floor
  {
    FloorTwice(diff / 1000.0, 60.0);
    assert diff / 1000.0 / 60.0 == diff / 60000.0;
    FloorTwice(diff / 60000.0, 60.0);
    assert diff / 60000.0 / 60.0 == diff / 3600000.0;
    FloorTwice(diff / 3600000.0, 24.0);
    assert diff / 3600000.0 / 24.0 == diff / 86400000.0;
  }

  /**
   * The unit depends on the elapsed time alone: under a minute seconds, under an hour minutes,
   * under a day hours, under a week days, each counted as whole units; a week or more is
   * older (and shown as a calendar date).
   */
  lemma {:induction false} RelativeTimeBuckets(diff: real)
    ensures diff < 60000.0 ==> ElapsedOf(diff) == Seconds((diff / 1000.0).Floor)
    ensures 60000.0 <= diff < 3600000.0 ==> ElapsedOf(diff) == Minutes((diff / 60000.0).Floor)
    ensures 3600000.0 <= diff < 86400000.0 ==> ElapsedOf(diff) == Hours((diff / 3600000.0).Floor)
    ensures 86400000.0 <= diff < 604800000.0 ==> ElapsedOf(diff) == Days((diff / 86400000.0).Floor)
    ensures 604800000.0 <= diff ==> ElapsedOf(diff) == Older
  {
    UnitsOf(diff);
  }

  /** Hours and days are in the plural from 2 on; seconds and minutes always are. */
  lemma {:induction false} RelativeTimePlural(now: real, timestamp: real)
    ensures var e := ElapsedOf(now - timestamp);
      e.Hours? ==> (FormatRelativeTime(now, timestamp)
        == Phrase(IntText(e.count) + (if e.count > 1 then " hours ago" else " hour ago")))
    ensures var e := ElapsedOf(now - timestamp);
      e.Days? ==> (FormatRelativeTime(now, timestamp)
        == Phrase(IntText(e.count) + (if e.count > 1 then " days ago" else " day ago")))
  {
    var e := ElapsedOf(now - timestamp);
    if e.Hours? || e.Days? {
      var t := IntText(e.count);
      assert t + " hour" + "s" + " ago" == t + " hours ago";
      assert t + " hour" + "" + " ago" == t + " hour ago";
      assert t + " day" + "s" + " ago" == t + " days ago";
      assert t + " day" + "" + " ago" == t + " day ago";
    }
  }

  // ---------------------------------------------------------------------------
  // Font labels

  /** The weight labels, keyed by the weight's decimal text as an object literal keys them. */
  const FontWeights: seq<(string, string)> := [
    ("100", "Thin"), ("200", "Extra Light"), ("300", "Light"), ("400", "Regular"), ("500", "Medium"),
    ("600", "Semibold"), ("700", "Bold"), ("800", "Extra Bold"), ("900", "Black")]

  /** `getFontWeightLabel(weight)`: the label of the parsed weight, or `'Regular'`. */
  function FontWeightLabel(weight: string): string {
    match ParseInt(weight)
    case None => "Regular"
    case Some(n) => Lookup(FontWeights, IntText(n)).GetOr("Regular")
  }

  /** The weights 100, 200, ..., 900 get their labels. */
  lemma {:induction false} FontWeightLabelKnown(weight: string, k: nat)
    requires 1 <= k <= 9 && ParseInt(weight) == Some(100 * k)
    ensures FontWeightLabel(weight) == FontWeights[k - 1].1
  {
    WeightKeys();
    LookupAt(FontWeights, k - 1);
  }

  /** The numeral of a whole hundred below a thousand. */
  lemma {:induction false} HundredText(k: nat)
    requires 1 <= k <= 9
    ensures NatText(100 * k) == [DigitChar(k), '0', '0']
  {
    assert (100 * k) / 10 == 10 * k && (100 * k) % 10 == 0;
    assert (10 * k) / 10 == k && (10 * k) % 10 == 0;
    assert NatText(10 * k) == NatText(k) + [DigitChar(0)];
  }

  lemma {:induction false} WeightKeys()
    ensures forall k :: 1 <= k <= 9 ==> FontWeights[k - 1].0 == NatText(100 * k)
    ensures forall i, j :: 0 <= i < j < |FontWeights| ==> FontWeights[i].0 != FontWeights[j].0
  {
    forall k | 1 <= k <= 9 ensures FontWeights[k - 1].0 == NatText(100 * k) {
      HundredText(k);
    }
  }

  /** Only the weight a key names has that key as its decimal text. */
  lemma {:induction false} WeightKeyValue(n: int, i: nat)
    requires i < |FontWeights| && FontWeights[i].0 == IntText(n)
    ensures n == 100 * (i + 1)
  {
    WeightKeys();
    var key := NatText(100 * (i + 1));
    assert IntText(n) == key;
    assert IsDigit(IntText(n)[0]);
    NatTextValue(n);
    NatTextValue(100 * (i + 1));
  }

  /** Any other weight, and text that is not a number, is labelled `'Regular'`. */
  lemma {:induction false} FontWeightLabelOther(weight: string)
    requires forall k :: 1 <= k <= 9 ==> ParseInt(weight) != Some(100 * k)
    ensures FontWeightLabel(weight) == "Regular"
  {
    if ParseInt(weight).Some? {
      var n := ParseInt(weight).value;
      forall i | 0 <= i < |FontWeights| ensures FontWeights[i].0 != IntText(n) {
        if FontWeights[i].0 == IntText(n) {
          WeightKeyValue(n, i);
        }
      }
      LookupFound(FontWeights, IntText(n));
    }
  }

  /** The family names looked for, lower case, each with its label, in the order they are tried. */
  const FontFamilies: seq<(string, string)> := [
    ("sf pro text", "SF Pro Text"), ("inter", "Inter"), ("roboto", "Roboto"),
    ("helvetica neue", "Helvetica"), ("georgia", "Georgia"), ("times new roman", "Times New Roman")]

  /** The position of the first family whose name occurs in `lower`, or the count when none does. */
  function FirstFamily(families: seq<(string, string)>, lower: string): (i: nat)
    ensures i <= |families|
    ensures i < |families| ==> Contains(lower, families[i].0)
    ensures forall j :: 0 <= j < i ==> !Contains(lower, families[j].0)
  {
    if |families| == 0 || Contains(lower, families[0].0) then 0
    else 1 + FirstFamily(families[1..], lower)
  }

  /** The label of the first family whose name occurs in `lower`. */
  function KnownFamily(families: seq<(string, string)>, lower: string): (r: Option<string>)
    ensures r.None? <==> forall i :: 0 <= i < |families| ==> !Contains(lower, families[i].0)
    ensures r.Some? ==> exists i :: (0 <= i < |families| && Contains(lower, families[i].0)
      && r.value == families[i].1 && forall j :: 0 <= j < i ==> !Contains(lower, families[j].0))
  {
    var i := FirstFamily(families, lower);
    if i < |families| then Some(families[i].1) else None
  }

  lemma {:induction false} NoOccurrence(s: string, c: char, k: int)
    requires 0 <= k <= |s|
    requires forall j :: 0 <= j < k ==> !OccursAt(s, [c], j)
    ensures c !in s[..k]
  {
    forall j | 0 <= j < k ensures s[j] != c {
      assert !OccursAt(s, [c], j);
      assert s[j..j + 1] == [s[j]];
    }
  }

  /** `s.split(',')[0]`: the prefix of `s` up to its first comma, or all of `s` when it has none. */
  function FirstSegment(s: string): (r: string)
    ensures ',' !in r
    ensures |r| <= |s| && r == s[..|r|] && (|r| == |s| || s[|r|] == ',')
    ensures forall c :: c in r ==> c in s
  {
    var k := IndexOf(s, ",");
    if k == -1 then
      NoOccurrence(s, ',', |s|);
      assert s[..|s|] == s;
      s
    else
      NoOccurrence(s, ',', k);
      assert s[k..k + 1] == ",";
      s[..k]
  }

  /** The segment before the first comma of `name + "," + rest` is `name`, when `name` has no comma. */
  lemma {:induction false} FirstSegmentOf(name: string, rest: string)
    requires ',' !in name
    ensures FirstSegment(name + "," + rest) == name
  {
    var s := name + "," + rest;
    var r := FirstSegment(s);
    assert s[|name|] == ',';
    assert s[..|name|] == name;
  }

  /** `s.replace(/["']/g, '')`: every quote goes, and every other character stays. */
  function WithoutQuotes(s: string): (r: string)
    ensures '"' !in r && '\'' !in r
    ensures forall c :: c in r ==> c in s
    ensures forall c :: multiset(r)[c] == if c == '"' || c == '\'' then 0 else multiset(s)[c]
  {
    if |s| == 0 then ""
    else
      var rest := WithoutQuotes(s[1..]);
      assert s == [s[0]] + s[1..];
      if s[0] == '"' || s[0] == '\'' then rest else [s[0]] + rest
  }

  /** Removing quotes works piece by piece, so the characters that stay keep their order. */
  lemma {:induction false} WithoutQuotesAppend(a: string, b: string)
    ensures WithoutQuotes(a + b) == WithoutQuotes(a) + WithoutQuotes(b)
    decreases |a|
  {
    if |a| == 0 {
      assert a + b == b;
    } else {
      assert (a + b)[0] == a[0] && (a + b)[1..] == a[1..] + b;
      WithoutQuotesAppend(a[1..], b);
    }
  }

  /** A string without quotes is left as it is. */
  lemma {:induction false} WithoutQuotesKeeps(s: string)
    requires '"' !in s && '\'' !in s
    ensures WithoutQuotes(s) == s
    decreases |s|
  {
    if |s| > 0 {
      WithoutQuotesKeeps(s[1..]);
    }
  }

  /** Trimming keeps only characters of the string and leaves no white space at either end. */
  lemma {:induction false} TrimWithin(s: string)
    ensures var r := Trim(s);
      && (forall c :: c in r ==> c in s)
      && (|r| > 0 ==> !IsWhiteSpace(r[0]) && !IsWhiteSpace(r[|r| - 1]))
  {
    var t := TrimStart(s);
    var r := Trim(s);
    assert forall x :: x in t ==> x in s;
    assert forall x :: x in r ==> x in t;
    if |r| > 0 {
      assert r[0] == t[0];
    }
  }

  /**
   * The first entry of a font family list, without quotes and surrounding white space:
   * `fontFamily.split(',')[0].replace(/["']/g, '').trim()`.
   */
  function FirstFamilyName(fontFamily: string): (r: string)
    ensures ',' !in r && '"' !in r && '\'' !in r
    ensures |r| > 0 ==> !IsWhiteSpace(r[0]) && !IsWhiteSpace(r[|r| - 1])
    ensures forall c :: c in r ==> c in fontFamily
  {
    var w := WithoutQuotes(FirstSegment(fontFamily));
    TrimWithin(w);
    Trim(w)
  }

  /** A list whose first entry is a bare, trimmed name gives that name, whatever follows it. */
  lemma {:induction false} FirstFamilyNameOf(name: string, rest: string)
    requires ',' !in name && '"' !in name && '\'' !in name && Trim(name) == name
    ensures FirstFamilyName(name + "," + rest) == name
  {
    FirstSegmentOf(name, rest);
    WithoutQuotesKeeps(name);
  }

  /** `getFontFamilyLabel(fontFamily)`. */
  function FontFamilyLabel(fontFamily: string): string {
    match KnownFamily(FontFamilies, ToLower(fontFamily))
    case Some(name) => name
    case None => FirstFamilyName(fontFamily)
  }

  /** A list naming a known family, in any case, gets the label of the first family found. */
  lemma {:induction false} FontFamilyKnown(fontFamily: string, i: nat)
    requires i < |FontFamilies| && Contains(ToLower(fontFamily), FontFamilies[i].0)
    requires forall j :: 0 <= j < i ==> !Contains(ToLower(fontFamily), FontFamilies[j].0)
    ensures FontFamilyLabel(fontFamily) == FontFamilies[i].1
  {
    var r := KnownFamily(FontFamilies, ToLower(fontFamily));
    if r.Some? {
      var k :| 0 <= k < |FontFamilies| && Contains(ToLower(fontFamily), FontFamilies[k].0)
        && r.value == FontFamilies[k].1 && forall j :: 0 <= j < k ==> !Contains(ToLower(fontFamily), FontFamilies[j].0);
      assert k == i;
    }
  }

  /** A list naming none of the known families is labelled with its first entry. */
  lemma {:induction false} FontFamilyFallback(fontFamily: string)
    requires forall i :: 0 <= i < |FontFamilies| ==> !Contains(ToLower(fontFamily), FontFamilies[i].0)
    ensures FontFamilyLabel(fontFamily) == FirstFamilyName(fontFamily)
  {
  }
}
