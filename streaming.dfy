/**
 * Server-sent-events framing of analysis events, and a buffer that collects streamed text and
 * cuts off the first complete JSON value as soon as its closing bracket arrives.
 * `JSON.stringify` and `JSON.parse` are parameters: `stringify` is the text of an event, and
 * `parse` answers `None` where `JSON.parse` throws.
 */
module Streaming {
  import opened Wrappers
  import opened Json
  import opened ChangeAnalyzer

  // ---------------------------------------------------------------------------
  // Server-sent events

  /** `createSSEMessage(event)`: one `data:` line and the blank line that ends the message. */
  function CreateSSEMessage(stringify: Event -> string, event: Event): (r: string)
    ensures r == "data: " + stringify(event) + "\n\n"
  {
    "data: " + stringify(event) + "\n\n"
  }

  /** The characters that end a line for `^`, `$` and `.` in a JavaScript regular expression. */
  predicate LineTerminator(c: char) {
    c == '\n' || c == '\r' || c == '\U{2028}' || c == '\U{2029}'
  }

  predicate NoLineTerminator(s: string) {
    forall k :: 0 <= k < |s| ==> !LineTerminator(s[k])
  }

  /** Position `p` is where `^` matches in multiline mode. */
  predicate LineStart(m: string, p: nat)
    requires p <= |m|
  {
    p == 0 || LineTerminator(m[p - 1])
  }

  /** `data: ` at `p`, followed by at least one character of the same line. */
  predicate DataAt(m: string, p: nat) {
    p + 7 <= |m| && m[p..p + 6] == "data: " && !LineTerminator(m[p + 6])
  }

  /** The end of the line that runs through position `q`: where `$` matches first. */
  function LineEnd(m: string, q: nat): (e: nat)
    requires q <= |m|
    ensures q <= e <= |m| && (e == |m| || LineTerminator(m[e]))
    ensures NoLineTerminator(m[q..e])
    decreases |m| - q
  {
    if q == |m| || LineTerminator(m[q]) then q
    else
      var e := LineEnd(m, q + 1);
      assert m[q..e] == [m[q]] + m[q + 1..e];
      e
  }

  lemma {:induction false} LineEndAt(m: string, q: nat, e: nat)
    requires q <= e <= |m| && NoLineTerminator(m[q..e]) && (e == |m| || LineTerminator(m[e]))
    ensures LineEnd(m, q) == e
    decreases e - q
  {
    if q < e {
      assert m[q] == m[q..e][0];
      assert m[q + 1..e] == m[q..e][1..];
      LineEndAt(m, q + 1, e);
    }
  }

  /** The group captured by `/^data: (.+)$/m` in the leftmost match at or after `p`. */
  function MatchDataFrom(m: string, p: nat): (r: Option<string>)
    requires p <= |m|
    ensures r.Some? ==> |r.value| > 0 && NoLineTerminator(r.value)
    decreases |m| - p
  {
    if p == |m| then None
    else if LineStart(m, p) && DataAt(m, p) then Some(m[p + 6..LineEnd(m, p + 6)])
    else MatchDataFrom(m, p + 1)
  }

  function MatchData(m: string): Option<string> {
    MatchDataFrom(m, 0)
  }

  /** A match is a `data: ` line of the message, and no earlier line start begins one. */
  lemma {:induction false} MatchDataFound(m: string, p: nat)
    requires p <= |m|
    ensures MatchDataFrom(m, p).Some? <==> exists q :: p <= q < |m| && LineStart(m, q) && DataAt(m, q)
    ensures MatchDataFrom(m, p).Some? ==>
      exists q :: p <= q < |m| && LineStart(m, q) && DataAt(m, q) && MatchDataFrom(m, p).value == m[q + 6..LineEnd(m, q + 6)]
    decreases |m| - p
  {
    if p < |m| && !(LineStart(m, p) && DataAt(m, p)) {
      MatchDataFound(m, p + 1);
    }
  }

  /** `parseSSEMessage(message)`: `None` stands for `null`, both without a match and when parsing throws. */
  function ParseSSEMessage(parse: string -> Option<Json>, message: string): (r: Option<Json>)
    ensures r.Some? ==> MatchData(message).Some? && r == parse(MatchData(message).value)
    ensures MatchData(message).None? ==> r.None?
    ensures MatchData(message).Some? ==> r == parse(MatchData(message).value)
  {
    var data := MatchData(message);
    if data.None? then None else parse(data.value)
  }

  /** A one-line event text comes back out of its message unchanged. */
  lemma {:induction false} MessageData(text: string)
    requires |text| > 0 && NoLineTerminator(text)
    ensures MatchData("data: " + text + "\n\n") == Some(text)
  {
    var m := "data: " + text + "\n\n";
    assert m[..6] == "data: ";
    assert m[6] == text[0];
    assert m[6..6 + |text|] == text;
    assert m[6 + |text|] == '\n';
    LineEndAt(m, 6, 6 + |text|);
  }

  /**
   * Framing and reading back: when the event's text is a single non-empty line, the message
   * parses to whatever `JSON.parse` makes of that text.
   */
  lemma {:induction false} SSERoundTrip(stringify: Event -> string, parse: string -> Option<Json>, event: Event)
    requires |stringify(event)| > 0 && NoLineTerminator(stringify(event))
    ensures ParseSSEMessage(parse, CreateSSEMessage(stringify, event)) == parse(stringify(event))
  {
    MessageData(stringify(event));
  }

  /**
   * `JSON.stringify` escapes line feeds and carriage returns inside strings but leaves U+2028
   * and U+2029 as they are, and those two end a line for the regular expression: the message
   * of an event whose text holds one hands `JSON.parse` only the text before it.
   */
  lemma {:induction false} SeparatorCutsData(before: string, after: string)
    requires |before| > 0 && NoLineTerminator(before)
    ensures MatchData("data: " + (before + "\U{2028}" + after) + "\n\n") == Some(before)
  {
    var text := before + "\U{2028}" + after;
    var m := "data: " + text + "\n\n";
    assert m[..6] == "data: ";
    assert m[6] == before[0];
    assert m[6..6 + |before|] == before;
    assert m[6 + |before|] == '\U{2028}';
    LineEndAt(m, 6, 6 + |before|);
  }

  /** The event text with U+2028 and U+2029 written as the JSON escapes `\u2028` and `\u2029`. */
  function EscapeSeparators(t: string): (r: string)
    ensures (forall k :: 0 <= k < |t| ==> t[k] != '\n' && t[k] != '\r') ==> NoLineTerminator(r)
    ensures |t| > 0 ==> |r| > 0
  {
    if |t| == 0 then ""
    else
      var head := if t[0] == '\U{2028}' then "\\u2028" else if t[0] == '\U{2029}' then "\\u2029" else [t[0]];
      var r := head + EscapeSeparators(t[1..]);
      assert forall k :: 0 <= k < |t[1..]| ==> t[1..][k] == t[k + 1];
      r
  }

  /** `createSSEMessage` with the two separators escaped, which keeps the data on one line. */
  function CreateSSEMessageEscaped(stringify: Event -> string, event: Event): (r: string)
    ensures r == "data: " + EscapeSeparators(stringify(event)) + "\n\n"
  {
    "data: " + EscapeSeparators(stringify(event)) + "\n\n"
  }

  /**
   * With the separators escaped the round trip holds for every `JSON.stringify` text, which
   * never holds a raw line feed or carriage return, given that `JSON.parse` reads an escaped
   * separator as the separator itself.
   */
  lemma {:induction false} EscapedSSERoundTrip(stringify: Event -> string, parse: string -> Option<Json>, event: Event)
    requires |stringify(event)| > 0
    requires forall k :: 0 <= k < |stringify(event)| ==> stringify(event)[k] != '\n' && stringify(event)[k] != '\r'
    requires parse(EscapeSeparators(stringify(event))) == parse(stringify(event))
    ensures ParseSSEMessage(parse, CreateSSEMessageEscaped(stringify, event)) == parse(stringify(event))
  {
    MessageData(EscapeSeparators(stringify(event)));
  }

  /** `createSSEStream(events)`: one message per event, in order. */
  function SSEStream(stringify: Event -> string, events: seq<Event>): (r: seq<string>)
    ensures |r| == |events|
    ensures forall i :: 0 <= i < |events| ==> r[i] == CreateSSEMessage(stringify, events[i])
  {
    seq(|events|, i requires 0 <= i < |events| => CreateSSEMessage(stringify, events[i]))
  }

  // ---------------------------------------------------------------------------
  // The bracket scanner of `tryParse`

  /**
   * The scan from position `i` in the given state: the position of the closing bracket that
   * brings the depth back to zero, or `None` when the text ends first.
   */
  function ScanFrom(s: string, i: nat, depth: int, inString: bool, escape: bool): (r: Option<nat>)
    requires i <= |s|
    ensures r.Some? ==> i <= r.value < |s| && (s[r.value] == '}' || s[r.value] == ']')
    decreases |s| - i
  {
    if i == |s| then None
    else
      var c := s[i];
      if escape then ScanFrom(s, i + 1, depth, inString, false)
      else if c == '\\' && inString then ScanFrom(s, i + 1, depth, inString, true)
      else if c == '"' && !escape then ScanFrom(s, i + 1, depth, !inString, escape)
      else if !inString && (c == '{' || c == '[') then ScanFrom(s, i + 1, depth + 1, inString, escape)
      else if !inString && (c == '}' || c == ']') then
        if depth - 1 == 0 then Some(i) else ScanFrom(s, i + 1, depth - 1, inString, escape)
      else ScanFrom(s, i + 1, depth, inString, escape)
  }

  /** Where the first complete JSON value of the buffer ends. */
  function JsonEnd(s: string): Option<nat> {
    ScanFrom(s, 0, 0, false, false)
  }

  /** The scan reads no further than the bracket it stops at, so later text cannot change it. */
  lemma {:induction false} ScanFromAppend(s: string, t: string, i: nat, depth: int, inString: bool, escape: bool)
    requires i <= |s|
    ensures ScanFrom(s, i, depth, inString, escape).Some? ==>
      ScanFrom(s + t, i, depth, inString, escape) == ScanFrom(s, i, depth, inString, escape)
    ensures ScanFrom(s, i, depth, inString, escape).None? ==>
      (ScanFrom(s + t, i, depth, inString, escape).None? || ScanFrom(s + t, i, depth, inString, escape).value >= |s|)
    decreases |s| - i
  {
    if i < |s| {
      assert (s + t)[i] == s[i];
      var c := s[i];
      if escape {
        ScanFromAppend(s, t, i + 1, depth, inString, false);
      } else if c == '\\' && inString {
        ScanFromAppend(s, t, i + 1, depth, inString, true);
      } else if c == '"' {
        ScanFromAppend(s, t, i + 1, depth, !inString, escape);
      } else if !inString && (c == '{' || c == '[') {
        ScanFromAppend(s, t, i + 1, depth + 1, inString, escape);
      } else if !inString && (c == '}' || c == ']') {
        if depth - 1 != 0 {
          ScanFromAppend(s, t, i + 1, depth - 1, inString, escape);
        }
      } else {
        ScanFromAppend(s, t, i + 1, depth, inString, escape);
      }
    }
  }

  /**
   * Appending a chunk keeps a complete value where it was; without one, a value can only be
   * completed by a bracket of the new chunk.
   */
  lemma {:induction false} JsonEndAppend(s: string, t: string)
    ensures JsonEnd(s).Some? ==> JsonEnd(s + t) == JsonEnd(s)
    ensures JsonEnd(s).None? ==> JsonEnd(s + t).None? || JsonEnd(s + t).value >= |s|
  {
    ScanFromAppend(s, t, 0, 0, false, false);
  }

  /** Inside a string literal, a run without quotes or backslashes changes nothing, brackets included. */
  lemma {:induction false} StringRun(s: string, i: nat, j: nat, depth: int)
    requires i <= j <= |s|
    requires forall k :: i <= k < j ==> s[k] != '"' && s[k] != '\\'
    ensures ScanFrom(s, i, depth, true, false) == ScanFrom(s, j, depth, true, false)
    decreases j - i
  {
    if i < j {
      StringRun(s, i + 1, j, depth);
    }
  }

  /** Inside a string literal, a backslash hides the character after it, an escaped quote included. */
  lemma {:induction false} EscapedChar(s: string, i: nat, depth: int)
    requires i + 2 <= |s| && s[i] == '\\'
    ensures ScanFrom(s, i, depth, true, false) == ScanFrom(s, i + 2, depth, true, false)
  {
  }

  /**
   * A string member whose text holds brackets and escaped quotes does not end the value early:
   * `{"k":"` + text + `"}` ends at its last brace whenever the text's quotes and backslashes
   * all come in escape pairs.
   */
  lemma {:induction false} QuotedBrackets(text: string)
    requires EscapedText(text)
    ensures JsonEnd("{\"k\":\"" + text + "\"}") == Some(|text| + 7)
  {
    var s := "{\"k\":\"" + text + "\"}";
    assert s[..6] == "{\"k\":\"";
    assert s[6..6 + |text|] == text;
    assert s[6 + |text|] == '"' && s[7 + |text|] == '}';
    assert s[0] == '{' && s[1] == '"' && s[2] == 'k' && s[3] == '"' && s[4] == ':' && s[5] == '"';
    assert ScanFrom(s, 0, 0, false, false) == ScanFrom(s, 1, 1, false, false);
    assert ScanFrom(s, 1, 1, false, false) == ScanFrom(s, 2, 1, true, false);
    assert ScanFrom(s, 2, 1, true, false) == ScanFrom(s, 3, 1, true, false);
    assert ScanFrom(s, 3, 1, true, false) == ScanFrom(s, 4, 1, false, false);
    assert ScanFrom(s, 4, 1, false, false) == ScanFrom(s, 5, 1, false, false);
    assert ScanFrom(s, 5, 1, false, false) == ScanFrom(s, 6, 1, true, false);
    EscapedTextScan(s, 6, |text|, 1);
    assert ScanFrom(s, 6 + |text|, 1, true, false) == ScanFrom(s, 7 + |text|, 1, false, false);
  }

  /** Every quote and backslash of the text sits in a pair `\x`. */
  predicate EscapedText(t: string)
    decreases |t|
  {
    if |t| == 0 then true
    else if t[0] == '\\' then |t| >= 2 && EscapedText(t[2..])
    else t[0] != '"' && EscapedText(t[1..])
  }

  lemma {:induction false} EscapedTextScan(s: string, i: nat, n: nat, depth: int)
    requires i + n <= |s| && EscapedText(s[i..i + n])
    ensures ScanFrom(s, i, depth, true, false) == ScanFrom(s, i + n, depth, true, false)
    decreases n
  {
    if n > 0 {
      var t := s[i..i + n];
      assert t[0] == s[i];
      if s[i] == '\\' {
        assert t[2..] == s[i + 2..i + n];
        EscapedTextScan(s, i + 2, n - 2, depth);
      } else {
        assert t[1..] == s[i + 1..i + n];
        EscapedTextScan(s, i + 1, n - 1, depth);
      }
    }
  }

  // ---------------------------------------------------------------------------
  // JSONStreamBuffer

  /** The object `tryParse` returns; `data` is absent unless `success`. */
  datatype ParseAttempt = ParseAttempt(success: bool, data: Option<Json>, remaining: string)

  class JSONStreamBuffer {
    var buffer: string

    constructor()
      ensures buffer == ""
    {
      buffer := "";
    }

    /** `append(chunk)`. */
    method Append(chunk: string)
      modifies this
      ensures buffer == old(buffer) + chunk
    {
      buffer := buffer + chunk;
    }

    /**
     * `tryParse()`: without a complete value the buffer stays as it is; otherwise the value's
     * text is cut off the front of the buffer, whether or not it parses.
     */
    method TryParse(parse: string -> Option<Json>) returns (r: ParseAttempt)
      modifies this
      ensures JsonEnd(old(buffer)).None? ==> buffer == old(buffer) && r == ParseAttempt(false, None, buffer)
      ensures JsonEnd(old(buffer)).Some? ==>
        var e := JsonEnd(old(buffer)).value;
        && buffer == old(buffer)[e + 1..]
        && r == ParseAttempt(parse(old(buffer)[..e + 1]).Some?, parse(old(buffer)[..e + 1]), buffer)
    {
      var depth := 0;
      var inString := false;
      var escape := false;
      var jsonEnd := -1;
      var i := 0;
      while i < |buffer|
        invariant 0 <= i <= |buffer|
        invariant jsonEnd == -1
        invariant ScanFrom(buffer, i, depth, inString, escape) == JsonEnd(buffer)
      {
        var c := buffer[i];
        if escape {
          escape := false;
          i := i + 1;
          continue;
        }
        if c == '\\' && inString {
          escape := true;
          i := i + 1;
          continue;
        }
        if c == '"' && !escape {
          inString := !inString;
          i := i + 1;
          continue;
        }
        if !inString {
          if c == '{' || c == '[' {
            depth := depth + 1;
          } else if c == '}' || c == ']' {
            depth := depth - 1;
            if depth == 0 {
              jsonEnd := i;
              break;
            }
          }
        }
        i := i + 1;
      }
      if jsonEnd == -1 {
        return ParseAttempt(false, None, buffer);
      }
      var jsonStr := buffer[..jsonEnd + 1];
      buffer := buffer[jsonEnd + 1..];
      var data := parse(jsonStr);
      if data.None? {
        return ParseAttempt(false, None, buffer);
      }
      return ParseAttempt(true, data, buffer);
    }

    /** `getBuffer()`. */
    method GetBuffer() returns (r: string)
      ensures r == buffer
    {
      return buffer;
    }

    /** `clear()`. */
    method Clear()
      modifies this
      ensures buffer == ""
    {
      buffer := "";
    }
  }

  /**
   * What `tryParse` cuts off is exactly one complete value: scanned on its own it ends at its
   * last character, and with what is left behind it makes up the old buffer again.
   */
  lemma {:induction false} CutIsComplete(s: string)
    requires JsonEnd(s).Some?
    ensures var e := JsonEnd(s).value;
      && JsonEnd(s[..e + 1]) == Some(e)
      && s[..e + 1] + s[e + 1..] == s
  {
    var e := JsonEnd(s).value;
    assert s[..e + 1] + s[e + 1..] == s;
    JsonEndAppend(s[..e + 1], s[e + 1..]);
  }
}
