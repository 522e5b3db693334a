/**
 * The voice user prompt of `voice/prompts.ts`: the `VOICE_USER_PROMPT_TEMPLATE` literal and
 * `buildVoicePrompt`, which fills it through a sequence of first-occurrence replacements,
 * substring cuts and two global regular-expression deletions.
 *
 * The template is written as a list of pieces, literal text and `{{…}}` placeholders, so that
 * where each search lands can be proved piece by piece. For a request whose strings hold no
 * `{`, `<` or `$`, `BuildVoicePrompt` is proved to produce exactly `ExpectedPrompt`, a
 * rendering written line by line for the three cases (no element, element without computed
 * styles, element with computed styles).
 */
module VoicePrompts {
  import opened Wrappers
  import opened JsStrings

  // ---------------------------------------------------------------------------
  // Placeholders and pieces

  /** A character of a placeholder name: no brace and no `<`. */
  type NameChar = c: char | c != '{' && c != '}' && c != '<' witness 'a'

  /** A placeholder `{{` name `}}` of the template, known by its name. */
  datatype Slot = Slot(name: seq<NameChar>)

  const StylesPrefix: seq<NameChar> := "selectedElement.computedStyles."

  const Transcript := Slot("transcript")
  const IfElement := Slot("#if selectedElement")
  const TagName := Slot("selectedElement.tagName")
  const TextContent := Slot("selectedElement.textContent")
  const IfStyles := Slot("#if selectedElement.computedStyles")
  const FontFamily := Slot(StylesPrefix + "fontFamily")
  const FontWeight := Slot(StylesPrefix + "fontWeight")
  const FontSize := Slot(StylesPrefix + "fontSize")
  const Color := Slot(StylesPrefix + "color")
  const BackgroundColor := Slot(StylesPrefix + "backgroundColor")
  const TextAlign := Slot(StylesPrefix + "textAlign")
  const EndIf := Slot("/if")
  const Else := Slot("else")
  const Url := Slot("pageContext.url")
  const Title := Slot("pageContext.title")

  /** The placeholder text, for instance `{{transcript}}`. */
  function Token(x: Slot): string {
    "{{" + x.name + "}}"
  }

  /** A placeholder has a name; by its type the name holds no brace and no `<`. */
  predicate WellNamed(x: Slot) {
    |x.name| > 0
  }

  /**
   * A placeholder opens with `{{`, closes with `}}` and holds no brace in between, so one
   * placeholder cannot start inside another.
   */
  lemma {:induction false} TokenShape(x: Slot)
    requires WellNamed(x)
    ensures var t := Token(x);
      && |t| >= 5 && t[0] == '{' && t[1] == '{' && t[|t| - 2] == '}' && t[|t| - 1] == '}'
      && (forall m :: 2 <= m < |t| - 2 ==> t[m] != '{' && t[m] != '}')
      && '<' !in t
  {
    var t, n := Token(x), x.name;
    forall m | 2 <= m < |t| - 2
      ensures t[m] != '{' && t[m] != '}'
    {
      assert t[m] == n[m - 2] && n[m - 2] in n;
    }
  }

  lemma {:induction false} TokenInjective(x: Slot, y: Slot)
    requires Token(x) == Token(y)
    ensures x == y
  {
    var t := Token(x);
    assert x.name == t[2..|t| - 2];
    assert y.name == Token(y)[2..|Token(y)| - 2];
  }

  /** A piece of the template: literal text, or a placeholder not yet replaced. */
  datatype Piece = Text(text: string) | Hole(slot: Slot)

  function PieceText(p: Piece): string {
    match p
    case Text(s) => s
    case Hole(x) => Token(x)
  }

  /** The text of a list of pieces, in order. */
  function Render(ps: seq<Piece>): string
    decreases |ps|
  {
    if |ps| == 0 then "" else PieceText(ps[0]) + Render(ps[1..])
  }

  // ---------------------------------------------------------------------------
  // Rendering lists of pieces

  lemma {:induction false} RenderAppend(a: seq<Piece>, b: seq<Piece>)
    ensures Render(a + b) == Render(a) + Render(b)
    decreases |a|
  {
    if |a| == 0 {
      assert a + b == b;
    } else {
      assert (a + b)[1..] == a[1..] + b;
      RenderAppend(a[1..], b);
    }
  }

  lemma {:induction false} RenderSplit(ps: seq<Piece>, k: nat)
    requires k <= |ps|
    ensures Render(ps) == Render(ps[..k]) + Render(ps[k..])
  {
    assert ps == ps[..k] + ps[k..];
    RenderAppend(ps[..k], ps[k..]);
  }

  lemma {:induction false} RenderAt(ps: seq<Piece>, k: nat)
    requires k < |ps|
    ensures Render(ps) == Render(ps[..k]) + PieceText(ps[k]) + Render(ps[k + 1..])
    ensures Render(ps[..k + 1]) == Render(ps[..k]) + PieceText(ps[k])
  {
    RenderSplit(ps, k);
    RenderCons(ps[k..]);
    assert ps[k..][1..] == ps[k + 1..];
    Associative(Render(ps[..k]), PieceText(ps[k]), Render(ps[k + 1..]));
    RenderSnoc(ps, k);
  }

  lemma {:induction false} Associative(a: string, b: string, c: string)
    ensures a + (b + c) == a + b + c
  {
  }

  lemma {:induction false} RenderCons(ps: seq<Piece>)
    requires |ps| > 0
    ensures Render(ps) == PieceText(ps[0]) + Render(ps[1..])
  {
  }

  lemma {:induction false} RenderSnoc(ps: seq<Piece>, k: nat)
    requires k < |ps|
    ensures Render(ps[..k + 1]) == Render(ps[..k]) + PieceText(ps[k])
  {
    assert ps[..k + 1] == ps[..k] + [ps[k]];
    RenderAppend(ps[..k], [ps[k]]);
    RenderCons([ps[k]]);
    assert [ps[k]][1..] == [];
  }

  lemma {:induction false} RenderPrefix(ps: seq<Piece>, k0: nat, k: nat)
    requires k0 <= k <= |ps|
    ensures Render(ps[..k]) == Render(ps[..k0]) + Render(ps[k0..k])
    ensures Render(ps) == Render(ps[..k]) + Render(ps[k..])
  {
    RenderSplit(ps, k);
    var qs := ps[..k];
    RenderSplit(qs, k0);
    assert qs[..k0] == ps[..k0] && qs[k0..] == ps[k0..k];
  }

  /** Replacing the piece at `k` by text `v` puts `v` between the text before and after it. */
  lemma {:induction false} RenderUpdate(ps: seq<Piece>, k: nat, v: string)
    requires k < |ps|
    ensures Render(ps[k := Text(v)]) == Render(ps[..k]) + v + Render(ps[k + 1..])
  {
    var qs := ps[k := Text(v)];
    RenderAt(qs, k);
    assert qs[..k] == ps[..k] && qs[k + 1..] == ps[k + 1..];
  }

  lemma {:induction false} RenderAvoids(ps: seq<Piece>, c: char)
    requires forall j :: 0 <= j < |ps| ==> c !in PieceText(ps[j])
    ensures c !in Render(ps)
    decreases |ps|
  {
    if |ps| > 0 {
      RenderAvoids(ps[1..], c);
    }
  }

  // ---------------------------------------------------------------------------
  // Where a search lands

  lemma {:induction false} OccursShift(a: string, b: string, p: string, i: nat)
    ensures OccursAt(a + b, p, |a| + i) == OccursAt(b, p, i)
  {
    if i + |p| <= |b| {
      assert (a + b)[|a| + i..|a| + i + |p|] == b[i..i + |p|];
    }
  }

  /** An occurrence at `pos` with none in `from..pos` is what `indexOf(p, from)` returns. */
  lemma {:induction false} IndexOfFromIs(s: string, p: string, from: nat, pos: nat)
    requires from <= pos && OccursAt(s, p, pos)
    requires forall i :: from <= i < pos ==> !OccursAt(s, p, i)
    ensures IndexOfFrom(s, p, from) == pos
  {
  }

  /** `p` does not occur at `i` when one of its characters differs there. */
  lemma {:induction false} DiffersAt(s: string, p: string, i: nat, d: nat)
    requires i + |p| <= |s| && d < |p| && s[i + d] != p[d]
    ensures !OccursAt(s, p, i)
  {
    assert s[i..i + |p|][d] == s[i + d];
  }

  /** No placeholder `x` starts inside a text piece without `{` or inside another placeholder. */
  lemma {:induction false} NoTokenInPiece(p: Piece, x: Slot, rest: string, i: nat)
    requires WellNamed(x) && p != Hole(x) && (p.Text? ==> '{' !in p.text) && (p.Hole? ==> WellNamed(p.slot))
    requires i < |PieceText(p)|
    ensures !OccursAt(PieceText(p) + rest, Token(x), i)
  {
    var s, t := PieceText(p) + rest, Token(x);
    TokenShape(x);
    if i + |t| <= |s| {
      match p
      case Text(u) =>
        assert s[i] == u[i] && u[i] in u;
        DiffersAt(s, t, i, 0);
      case Hole(y) =>
        NoTokenInHole(x, y, rest, i);
    }
  }

  /** No placeholder `x` starts inside another placeholder `y`. */
  lemma {:induction false} NoTokenInHole(x: Slot, y: Slot, rest: string, i: nat)
    requires WellNamed(x) && WellNamed(y) && x != y && i < |Token(y)| && i + |Token(x)| <= |Token(y) + rest|
    ensures !OccursAt(Token(y) + rest, Token(x), i)
  {
    var s, t, h := Token(y) + rest, Token(x), Token(y);
    TokenShape(x);
    TokenShape(y);
    var m, n := |t|, |h|;
    if i >= 2 {
      assert s[i] == h[i];
      DiffersAt(s, t, i, 0);
    } else if i == 1 {
      assert s[2] == h[2];
      DiffersAt(s, t, i, 1);
    } else if m > n {
      assert s[n - 2] == h[n - 2];
      DiffersAt(s, t, 0, n - 2);
    } else if m - 1 < n - 2 {
      assert s[m - 1] == h[m - 1];
      DiffersAt(s, t, 0, m - 1);
    } else if m - 1 == n - 2 {
      assert s[m - 2] == h[m - 2];
      DiffersAt(s, t, 0, m - 2);
    } else {
      assert s[..m] == h;
      if t == h {
        TokenInjective(x, y);
      }
    }
  }

  /** The pieces hold neither placeholder `x` nor a `{` in their text. */
  predicate SlotFree(ps: seq<Piece>, x: Slot) {
    forall j :: 0 <= j < |ps| ==> Clear(ps[j], x)
  }

  /** The piece is not placeholder `x`, and any text has no `{`. */
  predicate Clear(p: Piece, x: Slot) {
    p != Hole(x) && (p.Text? ==> '{' !in p.text) && (p.Hole? ==> WellNamed(p.slot))
  }

  lemma {:induction false} TokenAbsent(ps: seq<Piece>, k0: nat, k: nat, x: Slot)
    requires WellNamed(x) && k0 <= k <= |ps| && SlotFree(ps[k0..k], x)
    ensures forall i :: |Render(ps[..k0])| <= i < |Render(ps[..k])| ==> !OccursAt(Render(ps), Token(x), i)
    decreases k - k0
  {
    if k0 < k {
      assert ps[k0 + 1..k] == ps[k0..k][1..];
      TokenAbsent(ps, k0 + 1, k, x);
      RenderAt(ps, k0);
      var a, u, rest := Render(ps[..k0]), PieceText(ps[k0]), Render(ps[k0 + 1..]);
      Associative(a, u, rest);
      assert ps[k0..k][0] == ps[k0];
      forall i | |a| <= i < |a| + |u|
        ensures !OccursAt(Render(ps), Token(x), i)
      {
        NoTokenInPiece(ps[k0], x, rest, i - |a|);
        OccursShift(a, u + rest, Token(x), i - |a|);
      }
    }
  }

  /** Placeholder `x` at piece `k`, with none between pieces `k0` and `k`, is found from `k0`. */
  lemma {:induction false} FindToken(ps: seq<Piece>, k0: nat, k: nat, x: Slot)
    requires WellNamed(x) && k0 <= k < |ps| && ps[k] == Hole(x) && SlotFree(ps[k0..k], x)
    ensures IndexOfFrom(Render(ps), Token(x), |Render(ps[..k0])|) == |Render(ps[..k])|
  {
    TokenAbsent(ps, k0, k, x);
    RenderAt(ps, k);
    RenderPrefix(ps, k0, k);
    var a := Render(ps[..k]);
    assert Render(ps) == a + Token(x) + Render(ps[k + 1..]);
    assert Render(ps)[|a|..|a| + |Token(x)|] == Token(x);
    IndexOfFromIs(Render(ps), Token(x), |Render(ps[..k0])|, |a|);
  }

  /**
   * No occurrence of the text `p` starts in piece `j`: its first character is not there, or the
   * piece is a placeholder shorter than `p` (and `p` has no `}`), or the piece is text without
   * `p` followed by a character `p` lacks.
   */
  ghost predicate StartClear(ps: seq<Piece>, j: int, p: string)
    requires 0 <= j < |ps|
  {
    && |p| > 0
    && (|| p[0] !in PieceText(ps[j])
        || (ps[j].Hole? && WellNamed(ps[j].slot) && |Token(ps[j].slot)| < |p| && '}' !in p)
        || (&& ps[j].Text? && (forall i :: !OccursAt(ps[j].text, p, i))
            && j + 1 < |ps| && |PieceText(ps[j + 1])| > 0 && PieceText(ps[j + 1])[0] !in p))
  }

  lemma {:induction false} NoTextInPiece(ps: seq<Piece>, j: nat, p: string, i: nat)
    requires j < |ps| && StartClear(ps, j, p) && i < |PieceText(ps[j])|
    ensures !OccursAt(PieceText(ps[j]) + Render(ps[j + 1..]), p, i)
  {
    var u, rest := PieceText(ps[j]), Render(ps[j + 1..]);
    var s := u + rest;
    if i + |p| <= |s| {
      if p[0] !in u {
        assert s[i] == u[i] && u[i] in u;
        DiffersAt(s, p, i, 0);
      } else if ps[j].Hole? && WellNamed(ps[j].slot) && |Token(ps[j].slot)| < |p| && '}' !in p {
        TokenShape(ps[j].slot);
        assert s[|u| - 1] == '}' && p[|u| - 1 - i] in p;
        DiffersAt(s, p, i, |u| - 1 - i);
      } else if i + |p| <= |u| {
        assert !OccursAt(u, p, i);
        assert u[i..i + |p|] == s[i..i + |p|];
      } else {
        assert ps[j + 1..][0] == ps[j + 1];
        assert s[|u|] == PieceText(ps[j + 1])[0] && p[|u| - i] in p;
        DiffersAt(s, p, i, |u| - i);
      }
    }
  }

  lemma {:induction false} TextAbsent(ps: seq<Piece>, k0: nat, k: nat, p: string)
    requires k0 <= k <= |ps| && forall j :: k0 <= j < k ==> StartClear(ps, j, p)
    ensures forall i :: |Render(ps[..k0])| <= i < |Render(ps[..k])| ==> !OccursAt(Render(ps), p, i)
    decreases k - k0
  {
    if k0 < k {
      TextAbsent(ps, k0 + 1, k, p);
      PieceClear(ps, k0, p);
    }
  }

  /** No occurrence of `p` starts within piece `k` when `StartClear` holds there. */
  lemma {:induction false} PieceClear(ps: seq<Piece>, k: nat, p: string)
    requires k < |ps| && StartClear(ps, k, p)
    ensures |Render(ps[..k + 1])| == |Render(ps[..k])| + |PieceText(ps[k])|
    ensures forall i :: |Render(ps[..k])| <= i < |Render(ps[..k + 1])| ==> !OccursAt(Render(ps), p, i)
  {
    RenderAt(ps, k);
    var a, u, rest := Render(ps[..k]), PieceText(ps[k]), Render(ps[k + 1..]);
    Associative(a, u, rest);
    RenderSnoc(ps, k);
    forall i | |a| <= i < |a| + |u|
      ensures !OccursAt(Render(ps), p, i)
    {
      NoTextInPiece(ps, k, p, i - |a|);
      OccursShift(a, u + rest, p, i - |a|);
    }
  }

  /** Text `p`, the whole of piece `k`, is found there when no occurrence starts before. */
  lemma {:induction false} FindText(ps: seq<Piece>, k: nat, p: string)
    requires k < |ps| && ps[k] == Text(p) && forall j :: 0 <= j < k ==> StartClear(ps, j, p)
    ensures IndexOf(Render(ps), p) == |Render(ps[..k])|
  {
    TextAbsent(ps, 0, k, p);
    RenderAt(ps, k);
    var a := Render(ps[..k]);
    assert ps[..0] == [];
    assert Render(ps)[|a|..|a| + |p|] == p;
    IndexOfFromIs(Render(ps), p, 0, |a|);
  }
  /** `replace` of the first `p`, found at piece `k` whose whole text it is, fills that piece. */
  lemma {:induction false} ReplaceAt(ps: seq<Piece>, k: nat, p: string, v: string)
    requires k < |ps| && PieceText(ps[k]) == p && IndexOf(Render(ps), p) == |Render(ps[..k])|
    requires '$' !in v
    ensures ReplaceFirst(Render(ps), p, v) == Render(ps[k := Text(v)])
  {
    RenderAt(ps, k);
    RenderUpdate(ps, k, v);
    var s, a := Render(ps), Render(ps[..k]);
    assert s[..|a|] == a;
    assert s[|a| + |p|..] == Render(ps[k + 1..]);
  }

  /** `replace` of the first placeholder `x`, at piece `k`, fills that piece with `v`. */
  lemma {:induction false} ReplaceToken(ps: seq<Piece>, k: nat, x: Slot, v: string)
    requires WellNamed(x) && k < |ps| && ps[k] == Hole(x) && SlotFree(ps[..k], x) && '$' !in v
    ensures ReplaceFirst(Render(ps), Token(x), v) == Render(ps[k := Text(v)])
  {
    assert ps[0..k] == ps[..k];
    FindToken(ps, 0, k, x);
    ReplaceAt(ps, k, Token(x), v);
  }

  // ---------------------------------------------------------------------------
  // The two global regular-expression deletions

  /**
   * The length of the match of `/<!-- [^>]+ -->/` at the start of `s`, if any: the `[^>]+`
   * run stops at the first `>`, which must close ` -->`, and must not be empty.
   */
  function CommentAt(s: string): (r: Option<nat>)
    ensures r.Some? ==> 0 < r.value <= |s|
  {
    if |s| >= 5 && s[..5] == "<!-- " then
      var j := IndexFrom(s, ">", 5);
      if j >= 9 && s[j - 3..j + 1] == " -->" then Some(j + 1) else None
    else None
  }

  /** `s.replace(/<!-- [^>]+ -->/g, '')`: matches are deleted, scanning left to right. */
  function StripComments(s: string): string
    decreases |s|
  {
    if |s| == 0 then ""
    else match CommentAt(s)
      case Some(n) => StripComments(s[n..])
      case None => [s[0]] + StripComments(s[1..])
  }

  /**
   * The length of the match of `/\{\{[^}]+\}\}/` at the start of `s`, if any: the `[^}]+` run
   * stops at the first `}`, which must be doubled, and must not be empty.
   */
  function PlaceholderAt(s: string): (r: Option<nat>)
    ensures r.Some? ==> 0 < r.value <= |s|
  {
    if |s| >= 2 && s[0] == '{' && s[1] == '{' then
      var j := IndexFrom(s, "}", 2);
      if j > 2 && j + 1 < |s| && s[j + 1] == '}' then Some(j + 2) else None
    else None
  }

  /** `s.replace(/\{\{[^}]+\}\}/g, '')`. */
  function StripPlaceholders(s: string): string
    decreases |s|
  {
    if |s| == 0 then ""
    else match PlaceholderAt(s)
      case Some(n) => StripPlaceholders(s[n..])
      case None => [s[0]] + StripPlaceholders(s[1..])
  }

  /** Text without `<` passes through the comment deletion untouched. */
  lemma {:induction false} CommentsKeep(a: string, b: string)
    requires '<' !in a
    ensures StripComments(a + b) == a + StripComments(b)
    decreases |a|
  {
    if |a| == 0 {
      assert a + b == b;
    } else {
      var s := a + b;
      assert s[0] == a[0] && a[0] in a;
      StripPlainHead(s);
      assert s[1..] == a[1..] + b;
      CommentsKeep(a[1..], b);
      assert StripComments(s) == [a[0]] + (a[1..] + StripComments(b));
      assert a + StripComments(b) == [a[0]] + (a[1..] + StripComments(b));
    }
  }

  /** No comment starts at a character other than `<`, so that character is kept. */
  lemma {:induction false} StripPlainHead(s: string)
    requires |s| > 0 && s[0] != '<'
    ensures StripComments(s) == [s[0]] + StripComments(s[1..])
  {
  }

  /** A marker `<!-- x -->`, with `x` non-empty and free of `>`, is deleted. */
  lemma {:induction false} CommentDropped(x: string, b: string)
    requires |x| > 0 && '>' !in x
    ensures StripComments("<!-- " + x + " -->" + b) == StripComments(b)
  {
    var c := "<!-- " + x + " -->";
    var s := c + b;
    var j := |c| - 1;
    assert s[..5] == "<!-- ";
    assert s[j..j + 1] == ">";
    forall i | 5 <= i < j
      ensures !OccursAt(s, ">", i)
    {
      if i < 5 + |x| {
        assert s[i] == x[i - 5] && x[i - 5] in x;
      }
      assert s[i..i + 1][0] == s[i];
    }
    IndexOfFromIs(s, ">", 5, j);
    assert IndexFrom(s, ">", 5) == j;
    assert s[j - 3..j + 1] == " -->";
    assert CommentAt(s) == Some(|c|);
    assert s[|c|..] == b;
  }

  /** Text without `{` passes through the placeholder deletion untouched. */
  lemma {:induction false} PlaceholdersKeep(a: string, b: string)
    requires '{' !in a
    ensures StripPlaceholders(a + b) == a + StripPlaceholders(b)
    decreases |a|
  {
    if |a| == 0 {
      assert a + b == b;
    } else {
      var s := a + b;
      assert s[0] == a[0] && a[0] in a;
      assert PlaceholderAt(s).None?;
      assert s[1..] == a[1..] + b;
      PlaceholdersKeep(a[1..], b);
      assert a == [a[0]] + a[1..];
    }
  }

  /** A single `{` not followed by another passes through as well. */
  lemma {:induction false} PlaceholdersKeepBrace(b: string)
    requires |b| > 0 && b[0] != '{'
    ensures StripPlaceholders("{" + b) == "{" + StripPlaceholders(b)
  {
    var s := "{" + b;
    assert s[1] == b[0];
    assert PlaceholderAt(s).None?;
    assert s[1..] == b;
  }
  // ---------------------------------------------------------------------------
  // The template

  /** A character of template text that cannot begin a placeholder or a comment. */
  type ProseChar = c: char | c != '{' && c != '<' witness ' '

  /** Template text with no `{` and no `<`. */
  type Prose = seq<ProseChar>

  /** Stretches of text, one after the other. */
  function Join<T>(parts: seq<seq<T>>): seq<T> {
    if |parts| == 0 then [] else parts[0] + Join(parts[1..])
  }

  const UserRequestHeading: Prose := "## User's Request\n\""
  const SelectedElementHeading: Prose := "\"\n\n## Selected Element\n"
  const TagLabel: Prose := "\n- **Tag**: "
  const TextLabel: Prose := "\n- **Text Content**: \""
  const TextClose: Prose := "\"\n"
  const StylesLabel: Prose := "\n- **Current Styles**:\n" + "  - Font: "
  const Space: Prose := " "
  const ColorLabel: Prose := "\n  - Color: "
  const BackgroundLabel: Prose := "\n  - Background: "
  const AlignmentLabel: Prose := "\n  - Alignment: "
  const Newline: Prose := "\n"
  const PageHeading: Prose := "\n\n## Page Context\n" + "- **URL**: "
  const TitleLabel: Prose := "\n- **Title**: "

  /** A character of the sentence: besides `{` and `<`, no `}` and no `"`. */
  type SentenceChar = c: ProseChar | c != '}' && c != '"' witness ' '

  /** The sentence kept when no element is selected, and searched for and deleted otherwise. */
  const SentenceParts: seq<seq<SentenceChar>> := ["No element is ", "currently ", "selected. If ", "the command ",
    "requires ", "targeting a ", "specific ", "element, you ",
    "should ask ", "the user to ", "select one ", "first."]
  const NoElementSentence: seq<SentenceChar> := Join(SentenceParts)

  /** The output-schema part of the template, after the page context, line by line. */
  const SchemaHeading: Prose := Join<ProseChar>(["\n\n## Output Schema\n\n", "Respond with JSON ",
    "in this exact ", "format:\n"])
  const SchemaUnderstood: Prose := Join<ProseChar>(["\n  \"understood\": ", "boolean,          ",
    "// true if you ", "understood the ", "intent\n"])
  const SchemaInterpretation: Prose := Join<ProseChar>(["  \"interpretation\": ",
    "string,       // ", "Human-readable ", "description of what ", "you understood\n"])
  const SchemaChanges: Prose := Join<ProseChar>(["  \"changes\": ", "[                   ",
    " // Array of ", "changes to apply ", "(empty if not ", "understood)\n    "])
  const SchemaChangeType: Prose := Join<ProseChar>(["\n      \"type\": ",
    "\"style\" | \"text\",   ", "// Type of change\n"])
  const SchemaElementId: Prose := Join<ProseChar>(["      \"elementId\": ", "string | null, // ",
    "Element ID if ", "targeting selected ", "element\n"])
  const SchemaStylesKey: Prose := "      \"styles\": "
  const SchemaStylesValue: Prose := Join<ProseChar>([" ... } | null,   // ", "CSS styles to apply ",
    "(for style type)\n"])
  const SchemaText: Prose := Join<ProseChar>(["      \"text\": ", "string | null       ",
    "// New text content ", "(for text type)\n"])
  const SchemaClose: Prose := "    }\n  ],\n"
  const SchemaClarification: Prose := Join<ProseChar>(["  ", "\"clarificationNeeded",
    "\": string | null,  ", "// Question to ask ", "if unclear\n"])
  const SchemaSuggestions: Prose := Join<ProseChar>(["  \"suggestions\": ", "string[] | ",
    "null         // ", "Suggested ", "alternatives\n"])
  const SchemaEnd: Prose := "}\n\n"
  const NotesHeading: Prose := "## Important Notes\n"
  const NoteSelect: Prose := Join<ProseChar>(["- If no element is ", "selected and the ",
    "command requires ", "one, set ", "understood=false ", "and ", "clarificationNeeded ",
    "to ask them to ", "select an element\n"])
  const NoteAmbiguous: Prose := Join<ProseChar>(["- If the command is ", "ambiguous (e.g., ",
    "\"make it bigger\" ", "without context), ", "ask for ", "clarification\n"])
  const NoteInterpretation: Prose := Join<ProseChar>(["- Always provide a ", "helpful ",
    "interpretation even ", "if you need ", "clarification\n"])
  const NoteCombine: Prose := Join<ProseChar>(["- Multiple changes ", "can be combined in ",
    "the changes array"])

  /** The response's fields up to the opening of a change. */
  const ResponseFields: Prose := SchemaUnderstood + SchemaInterpretation + SchemaChanges

  /** A change's fields up to the opening of its styles. */
  const ChangeFields: Prose := SchemaChangeType + SchemaElementId + SchemaStylesKey

  /** Everything after the styles' opening brace. */
  const SchemaTail: Prose := SchemaStylesValue + SchemaText + SchemaClose + SchemaClarification
    + SchemaSuggestions + SchemaEnd + NotesHeading + NoteSelect + NoteAmbiguous + NoteInterpretation
    + NoteCombine

  /** The output schema: three opening braces stand alone between stretches of prose. */
  const OutputSchema := SchemaHeading + "{" + ResponseFields + "{" + ChangeFields + "{" + SchemaTail

  /**
   * What stands at each placeholder of the template while it is being filled in: the
   * placeholder itself, or the text that replaced it. The no-element sentence is a field too,
   * since it is deleted like a placeholder.
   */
  datatype Fill = Fill(
    transcript: Piece, ifElement: Piece, tagName: Piece, textContent: Piece,
    ifStyles: Piece, fontFamily: Piece, fontWeight: Piece, fontSize: Piece,
    color: Piece, backgroundColor: Piece, textAlign: Piece,
    endIfStyles: Piece, elseBranch: Piece, sentence: Piece, endIf: Piece,
    url: Piece, title: Piece)

  /** The fill of the template as written: every placeholder in place. */
  function TemplateFill(sentence: seq<SentenceChar>): Fill {
    Fill(Hole(Transcript), Hole(IfElement), Hole(TagName), Hole(TextContent),
      Hole(IfStyles), Hole(FontFamily), Hole(FontWeight), Hole(FontSize),
      Hole(Color), Hole(BackgroundColor), Hole(TextAlign),
      Hole(EndIf), Hole(Else), Text(sentence), Hole(EndIf),
      Hole(Url), Hole(Title))
  }

  /** The user's request. */
  function Head(f: Fill): seq<Piece> {
    [Text(UserRequestHeading), f.transcript, Text(SelectedElementHeading)]
  }

  /** The element's tag and text, opened by `{{#if selectedElement}}`. */
  function ElementBlock(f: Fill): seq<Piece> {
    [f.ifElement, Text(TagLabel), f.tagName, Text(TextLabel), f.textContent, Text(TextClose)]
  }

  /** The element's computed styles, opened by their own `{{#if}}`. */
  function StylesBlock(f: Fill): seq<Piece> {
    [ f.ifStyles, Text(StylesLabel), f.fontFamily, Text(Space), f.fontWeight, Text(Space), f.fontSize,
      Text(ColorLabel), f.color, Text(BackgroundLabel), f.backgroundColor,
      Text(AlignmentLabel), f.textAlign, Text(Newline) ]
  }

  /** The two `{{/if}}` and, between them, the `{{else}}` branch with the no-element sentence. */
  function ElseBlock(f: Fill): seq<Piece> {
    [f.endIfStyles, Text(Newline), f.elseBranch, Text(Newline), f.sentence, Text(Newline), f.endIf]
  }

  /** The page context, then the output schema. */
  function PageBlock(f: Fill, schema: string): seq<Piece> {
    [Text(PageHeading), f.url, Text(TitleLabel), f.title, Text(schema)]
  }

  /** The template's pieces in order, numbered 0 to 34. */
  function Layout(f: Fill, schema: string): seq<Piece> {
    Head(f) + ElementBlock(f) + StylesBlock(f) + ElseBlock(f) + PageBlock(f, schema)
  }

  /** `VOICE_USER_PROMPT_TEMPLATE`. */
  const VoiceUserPromptTemplate := Render(Layout(TemplateFill(NoElementSentence), OutputSchema))

  /** The marker that replaces `{{else}}` when an element is selected. */
  const ElseMarker := "<!-- else -->"

  /** The marker that replaces `{{#if selectedElement}}` when none is. */
  const NoElementMarker := "<!-- no element -->"

  // ---------------------------------------------------------------------------
  // The request

  /** The computed styles the prompt shows. */
  datatype ComputedStyles = ComputedStyles(
    fontFamily: Option<string>, fontWeight: Option<string>, fontSize: Option<string>,
    color: Option<string>, backgroundColor: Option<string>, textAlign: Option<string>)

  /** The `selectedElement` argument: a tag name, optional text and optional computed styles. */
  datatype PromptElement = PromptElement(
    tagName: string, textContent: Option<string>, computedStyles: Option<ComputedStyles>)

  /** The `pageContext` argument. */
  datatype PageContext = PageContext(url: string, title: string)

  /** `value || 'unknown'` for a string. */
  function OrUnknown(s: string): string {
    if |s| > 0 then s else "unknown"
  }

  /** `selectedElement.tagName || 'unknown'`. */
  function ShownTag(e: PromptElement): string {
    OrUnknown(e.tagName)
  }

  /** `(selectedElement.textContent || '').substring(0, 100)`. */
  function ShownText(e: PromptElement): (r: string)
    ensures var s := e.textContent.GetOr("");
      && |r| == (if |s| < 100 then |s| else 100) && r == s[..|r|]
  {
    var s := e.textContent.GetOr("");
    Substring(s, 0, 100)
  }

  /** `style || ''` for one computed style. */
  function StyleText(v: Option<string>): string {
    v.GetOr("")
  }

  /** `pageContext?.url || 'unknown'`. */
  function PageUrl(page: Option<PageContext>): string {
    if page.Some? then OrUnknown(page.value.url) else "unknown"
  }

  /** `pageContext?.title || 'unknown'`. */
  function PageTitle(page: Option<PageContext>): string {
    if page.Some? then OrUnknown(page.value.title) else "unknown"
  }

  // ---------------------------------------------------------------------------
  // The expected prompt

  function HeaderPieces(transcript: string): seq<Piece> {
    [Text(UserRequestHeading), Text(transcript), Text(SelectedElementHeading)]
  }

  /** The Tag and Text Content lines. */
  function ElementPieces(e: PromptElement): seq<Piece> {
    [Text(TagLabel), Text(ShownTag(e)), Text(TextLabel), Text(ShownText(e)), Text(TextClose)]
  }

  /** The Current Styles lines. */
  function StylePieces(st: ComputedStyles): seq<Piece> {
    [ Text(StylesLabel), Text(StyleText(st.fontFamily)), Text(Space), Text(StyleText(st.fontWeight)),
      Text(Space), Text(StyleText(st.fontSize)),
      Text(ColorLabel), Text(StyleText(st.color)),
      Text(BackgroundLabel), Text(StyleText(st.backgroundColor)),
      Text(AlignmentLabel), Text(StyleText(st.textAlign)), Text(Newline) ]
  }

  /** The sentence on a line of its own, after an empty line. */
  function NoElementPieces(sentence: string): seq<Piece> {
    [Text(Newline), Text(sentence), Text(Newline)]
  }

  /** The three empty lines that the removed template lines leave after the styles. */
  const BlankLines: seq<Piece> := [Text(Newline), Text(Newline), Text(Newline)]

  function PagePieces(url: string, title: string, schema: string): seq<Piece> {
    [Text(PageHeading), Text(url), Text(TitleLabel), Text(title), Text(schema)]
  }

  /** The prompt's lines between the header and the page context, by case. */
  function ElementSection(element: Option<PromptElement>, sentence: string): seq<Piece> {
    match element
    case None => NoElementPieces(sentence)
    case Some(e) =>
      match e.computedStyles
      case None => ElementPieces(e)
      case Some(st) => ElementPieces(e) + StylePieces(st) + BlankLines
  }

  /**
   * The prompt for a request: the transcript, then the no-element sentence or the element's
   * tag, text and (when known) computed styles, then the page URL and title and the schema.
   */
  function ExpectedPrompt(transcript: string, element: Option<PromptElement>, page: Option<PageContext>): string {
    Render(PromptPieces(transcript, element, page, NoElementSentence, OutputSchema))
  }

  /** The expected prompt's pieces, for a given no-element sentence and schema. */
  function PromptPieces(transcript: string, element: Option<PromptElement>, page: Option<PageContext>,
    sentence: string, schema: string): seq<Piece>
  {
    HeaderPieces(transcript) + ElementSection(element, sentence) + PagePieces(PageUrl(page), PageTitle(page), schema)
  }

  /** Text that the replacements cannot misplace: no `{`, no `<` and no `$`. */
  predicate Plain(s: string) {
    '{' !in s && '<' !in s && '$' !in s
  }

  predicate PlainStyles(st: ComputedStyles) {
    && Plain(StyleText(st.fontFamily)) && Plain(StyleText(st.fontWeight)) && Plain(StyleText(st.fontSize))
    && Plain(StyleText(st.color)) && Plain(StyleText(st.backgroundColor)) && Plain(StyleText(st.textAlign))
  }

  predicate PlainElement(e: PromptElement) {
    && Plain(e.tagName) && Plain(e.textContent.GetOr(""))
    && (e.computedStyles.Some? ==> PlainStyles(e.computedStyles.value))
  }

  /** The request's strings are plain. */
  predicate PlainInputs(transcript: string, element: Option<PromptElement>, page: Option<PageContext>) {
    && Plain(transcript)
    && (element.Some? ==> PlainElement(element.value))
    && (page.Some? ==> Plain(page.value.url) && Plain(page.value.title))
  }

  /**
   * The request's strings are plain, and, when an element is selected, the transcript does not
   * itself contain the no-element sentence (which would be deleted in its place).
   */
  predicate PlainRequest(transcript: string, element: Option<PromptElement>, page: Option<PageContext>) {
    PlainInputs(transcript, element, page) && (element.Some? ==> !Contains(transcript, NoElementSentence))
  }

  /** A prompt that, for a plain request, is exactly the expected one. */
  predicate PromptFor(transcript: string, element: Option<PromptElement>, page: Option<PageContext>, prompt: string) {
    PlainRequest(transcript, element, page) ==> prompt == ExpectedPrompt(transcript, element, page)
  }

  // ---------------------------------------------------------------------------
  // Facts about the literal text

  lemma {:induction false} SlotsWellNamed()
    ensures WellNamed(Transcript) && WellNamed(IfElement) && WellNamed(TagName) && WellNamed(TextContent)
    ensures WellNamed(IfStyles) && WellNamed(EndIf) && WellNamed(Else) && WellNamed(Url) && WellNamed(Title)
    ensures WellNamed(FontFamily) && WellNamed(FontWeight) && WellNamed(FontSize)
    ensures WellNamed(Color) && WellNamed(BackgroundColor) && WellNamed(TextAlign)
    ensures FontFamily != FontWeight
  {
    assert FontFamily.name[35] == 'F' && FontWeight.name[35] == 'W';
  }

  /** The labels before the sentence do not hold its first letter. */
  lemma {:induction false} LabelsLackN()
    ensures 'N' !in UserRequestHeading && 'N' !in SelectedElementHeading && 'N' !in TagLabel
    ensures 'N' !in TextLabel && 'N' !in TextClose && 'N' !in Space && 'N' !in Newline
  {
  }

  /** The style labels do not hold the sentence's first letter either. */
  lemma {:induction false} StyleLabelsLackN()
    ensures 'N' !in StylesLabel && 'N' !in ColorLabel && 'N' !in BackgroundLabel && 'N' !in AlignmentLabel
  {
  }

  lemma {:induction false} SentenceShape()
    ensures |NoElementSentence| > 50 && NoElementSentence[0] == 'N'
  {
    var ps := SentenceParts;
    assert Join(ps) == ps[0] + Join(ps[1..]);
    assert Join(ps[1..]) == ps[1] + Join(ps[2..]);
    assert Join(ps[2..]) == ps[2] + Join(ps[3..]);
    assert Join(ps[3..]) == ps[3] + Join(ps[4..]);
    assert Join(ps[4..]) == ps[4] + Join(ps[5..]);
  }

  /** An opening brace between prose and text that the deletion keeps, is kept. */
  lemma {:induction false} BraceKept(a: Prose, b: string, tail: string)
    requires |b| > 0 && b[0] != '{'
    requires StripPlaceholders(b + tail) == b + StripPlaceholders(tail)
    ensures StripPlaceholders(a + "{" + b + tail) == a + "{" + b + StripPlaceholders(tail)
  {
    Associative(a, "{", b);
    Associative(a, "{" + b, tail);
    Associative("{", b, tail);
    PlaceholdersKeep(a, "{" + (b + tail));
    PlaceholdersKeepBrace(b + tail);
    Associative("{", b, StripPlaceholders(tail));
    Associative(a, "{" + b, StripPlaceholders(tail));
  }

  lemma {:induction false} SchemaOpensWithProse()
    ensures |SchemaStylesValue| > 0 && |SchemaChangeType| > 0 && |SchemaUnderstood| > 0
  {
  }

  /** Three opening braces, each between prose and non-empty prose, are all kept. */
  lemma {:induction false} BracesKept(h: Prose, f: Prose, c: Prose, t: Prose, tail: string)
    requires |f| > 0 && |c| > 0 && |t| > 0
    ensures '<' !in h + "{" + f + "{" + c + "{" + t
    ensures StripPlaceholders(h + "{" + f + "{" + c + "{" + t + tail)
      == h + "{" + f + "{" + c + "{" + t + StripPlaceholders(tail)
  {
    PlaceholdersKeep(t, tail);
    BraceKept(c, t, tail);
    var change := c + "{" + t;
    BraceKept(f, change, tail);
    var fields := f + "{" + change;
    BraceKept(h, fields, tail);
    calc {
      h + "{" + fields;
      { Associative(h + "{", f + "{", change); }
      h + "{" + (f + "{") + change;
      { Associative(h + "{", f, "{"); }
      h + "{" + f + "{" + change;
      { Associative(h + "{" + f + "{", c + "{", t);
        Associative(h + "{" + f + "{", c, "{"); }
      h + "{" + f + "{" + c + "{" + t;
    }
  }

  /** The schema's three `{` stand alone, so the placeholder deletion leaves it as it is. */
  lemma {:induction false} OutputSchemaKept(tail: string)
    ensures '<' !in OutputSchema
    ensures StripPlaceholders(OutputSchema + tail) == OutputSchema + StripPlaceholders(tail)
  {
    SchemaOpensWithProse();
    BracesKept(SchemaHeading, ResponseFields, ChangeFields, SchemaTail, tail);
  }



  // ---------------------------------------------------------------------------
  // Filling in the template, group by group

  /** The first placeholder `x` of `pre + g + post`, at `g[k]`, is replaced by `v`. */
  lemma {:induction false} ReplaceIn(pre: seq<Piece>, g: seq<Piece>, k: nat, x: Slot, post: seq<Piece>, v: string)
    requires WellNamed(x) && k < |g| && g[k] == Hole(x) && '$' !in v
    requires SlotFree(pre, x) && SlotFree(g[..k], x)
    ensures ReplaceFirst(Render(pre + g + post), Token(x), v) == Render(pre + g[k := Text(v)] + post)
  {
    var ps := pre + g + post;
    var i := |pre| + k;
    assert ps[..i] == pre + g[..k];
    assert SlotFree(ps[..i], x);
    ReplaceToken(ps, i, x, v);
    assert ps[i := Text(v)] == pre + g[k := Text(v)] + post;
  }

  /** A piece holds placeholder `x` or text without `{`. */
  predicate Slotted(p: Piece, x: Slot) {
    p == Hole(x) || (p.Text? && '{' !in p.text)
  }

  /** Each field of the fill holds its own placeholder or text without `{`. */
  predicate Filling(f: Fill) {
    && Slotted(f.transcript, Transcript) && Slotted(f.ifElement, IfElement)
    && Slotted(f.tagName, TagName) && Slotted(f.textContent, TextContent)
    && Slotted(f.ifStyles, IfStyles) && Slotted(f.fontFamily, FontFamily)
    && Slotted(f.fontWeight, FontWeight) && Slotted(f.fontSize, FontSize)
    && Slotted(f.color, Color) && Slotted(f.backgroundColor, BackgroundColor)
    && Slotted(f.textAlign, TextAlign) && Slotted(f.endIfStyles, EndIf)
    && Slotted(f.elseBranch, Else) && f.sentence.Text? && '{' !in f.sentence.text
    && Slotted(f.endIf, EndIf) && Slotted(f.url, Url) && Slotted(f.title, Title)
  }

  lemma {:induction false} HeadFree(f: Fill, x: Slot)
    requires Clear(f.transcript, x)
    ensures SlotFree(Head(f), x)
  {
  }

  lemma {:induction false} ElementFree(f: Fill, x: Slot)
    requires Clear(f.ifElement, x) && Clear(f.tagName, x) && Clear(f.textContent, x)
    ensures SlotFree(ElementBlock(f), x)
  {
  }

  lemma {:induction false} StylesFree(f: Fill, x: Slot)
    requires Clear(f.ifStyles, x) && Clear(f.fontFamily, x) && Clear(f.fontWeight, x) && Clear(f.fontSize, x)
    requires Clear(f.color, x) && Clear(f.backgroundColor, x) && Clear(f.textAlign, x)
    ensures SlotFree(StylesBlock(f), x)
  {
  }

  lemma {:induction false} ElseFree(f: Fill, x: Slot)
    requires Clear(f.endIfStyles, x) && Clear(f.elseBranch, x) && Clear(f.sentence, x) && Clear(f.endIf, x)
    ensures SlotFree(ElseBlock(f), x)
  {
  }


  /** Every field but those of placeholder `x` is clear of `x`. */
  lemma {:induction false} FillingClear(f: Fill, x: Slot)
    requires Filling(f)
    ensures x != Transcript ==> Clear(f.transcript, x)
    ensures x != IfElement ==> Clear(f.ifElement, x)
    ensures x != TagName ==> Clear(f.tagName, x)
    ensures x != TextContent ==> Clear(f.textContent, x)
    ensures x != IfStyles ==> Clear(f.ifStyles, x)
    ensures x != FontFamily ==> Clear(f.fontFamily, x)
    ensures x != FontWeight ==> Clear(f.fontWeight, x)
    ensures x != FontSize ==> Clear(f.fontSize, x)
    ensures x != Color ==> Clear(f.color, x)
    ensures x != BackgroundColor ==> Clear(f.backgroundColor, x)
    ensures x != TextAlign ==> Clear(f.textAlign, x)
    ensures x != EndIf ==> Clear(f.endIfStyles, x) && Clear(f.endIf, x)
    ensures x != Else ==> Clear(f.elseBranch, x)
    ensures Clear(f.sentence, x)
    ensures x != Url ==> Clear(f.url, x)
    ensures x != Title ==> Clear(f.title, x)
  {
    SlotsWellNamed();
  }

  lemma {:induction false} LayoutAtHead(f: Fill, schema: string)
    ensures Layout(f, schema) == [] + Head(f) + (ElementBlock(f) + StylesBlock(f) + ElseBlock(f) + PageBlock(f, schema))
  {
  }

  lemma {:induction false} LayoutAtElement(f: Fill, schema: string)
    ensures Layout(f, schema) == Head(f) + ElementBlock(f) + (StylesBlock(f) + ElseBlock(f) + PageBlock(f, schema))
  {
  }

  lemma {:induction false} LayoutAtStyles(f: Fill, schema: string)
    ensures Layout(f, schema) == Head(f) + ElementBlock(f) + StylesBlock(f) + (ElseBlock(f) + PageBlock(f, schema))
  {
  }

  lemma {:induction false} SlotFreeAppend(a: seq<Piece>, b: seq<Piece>, x: Slot)
    requires SlotFree(a, x) && SlotFree(b, x)
    ensures SlotFree(a + b, x)
  {
  }

  /** A placeholder of the user's request is filled in. */
  lemma {:induction false} FillInHead(f: Fill, schema: string, k: nat, x: Slot, v: string, f': Fill)
    requires WellNamed(x) && '$' !in v && k < 3 && Head(f)[k] == Hole(x) && SlotFree(Head(f)[..k], x)
    requires Head(f') == Head(f)[k := Text(v)] && ElementBlock(f') == ElementBlock(f)
    requires StylesBlock(f') == StylesBlock(f) && ElseBlock(f') == ElseBlock(f)
    requires PageBlock(f', schema) == PageBlock(f, schema)
    ensures ReplaceFirst(Render(Layout(f, schema)), Token(x), v) == Render(Layout(f', schema))
  {
    LayoutAtHead(f, schema);
    LayoutAtHead(f', schema);
    ReplaceIn([], Head(f), k, x, ElementBlock(f) + StylesBlock(f) + ElseBlock(f) + PageBlock(f, schema), v);
  }

  /** A placeholder of the element's tag and text is filled in. */
  lemma {:induction false} FillInElement(f: Fill, schema: string, k: nat, x: Slot, v: string, f': Fill)
    requires WellNamed(x) && '$' !in v && k < 6 && ElementBlock(f)[k] == Hole(x)
    requires SlotFree(Head(f), x) && SlotFree(ElementBlock(f)[..k], x)
    requires Head(f') == Head(f) && ElementBlock(f') == ElementBlock(f)[k := Text(v)]
    requires StylesBlock(f') == StylesBlock(f) && ElseBlock(f') == ElseBlock(f)
    requires PageBlock(f', schema) == PageBlock(f, schema)
    ensures ReplaceFirst(Render(Layout(f, schema)), Token(x), v) == Render(Layout(f', schema))
  {
    LayoutAtElement(f, schema);
    LayoutAtElement(f', schema);
    ReplaceIn(Head(f), ElementBlock(f), k, x, StylesBlock(f) + ElseBlock(f) + PageBlock(f, schema), v);
  }

  /** A placeholder of the computed styles is filled in. */
  lemma {:induction false} FillInStyles(f: Fill, schema: string, k: nat, x: Slot, v: string, f': Fill)
    requires WellNamed(x) && '$' !in v && k < 14 && StylesBlock(f)[k] == Hole(x)
    requires SlotFree(Head(f) + ElementBlock(f), x) && SlotFree(StylesBlock(f)[..k], x)
    requires Head(f') == Head(f) && ElementBlock(f') == ElementBlock(f)
    requires StylesBlock(f') == StylesBlock(f)[k := Text(v)] && ElseBlock(f') == ElseBlock(f)
    requires PageBlock(f', schema) == PageBlock(f, schema)
    ensures ReplaceFirst(Render(Layout(f, schema)), Token(x), v) == Render(Layout(f', schema))
  {
    LayoutAtStyles(f, schema);
    LayoutAtStyles(f', schema);
    ReplaceIn(Head(f) + ElementBlock(f), StylesBlock(f), k, x, ElseBlock(f) + PageBlock(f, schema), v);
  }

  /** A placeholder between the two `{{/if}}` is filled in. */
  lemma {:induction false} FillInElse(f: Fill, schema: string, k: nat, x: Slot, v: string, f': Fill)
    requires WellNamed(x) && '$' !in v && k < 7 && ElseBlock(f)[k] == Hole(x)
    requires SlotFree(Head(f) + ElementBlock(f) + StylesBlock(f), x) && SlotFree(ElseBlock(f)[..k], x)
    requires Head(f') == Head(f) && ElementBlock(f') == ElementBlock(f)
    requires StylesBlock(f') == StylesBlock(f) && ElseBlock(f') == ElseBlock(f)[k := Text(v)]
    requires PageBlock(f', schema) == PageBlock(f, schema)
    ensures ReplaceFirst(Render(Layout(f, schema)), Token(x), v) == Render(Layout(f', schema))
  {
    ReplaceIn(Head(f) + ElementBlock(f) + StylesBlock(f), ElseBlock(f), k, x, PageBlock(f, schema), v);
  }

  /** `prompt.replace('{{transcript}}', transcript)` on the template. */
  lemma {:induction false} FillTranscript(s: seq<SentenceChar>, schema: string, t: string)
    requires '$' !in t && '{' !in t
    ensures var f' := TemplateFill(s).(transcript := Text(t));
      && Filling(f')
      && ReplaceFirst(Render(Layout(TemplateFill(s), schema)), Token(Transcript), t) == Render(Layout(f', schema))
  {
    var f := TemplateFill(s);
    SlotsWellNamed();
    FillInHead(f, schema, 1, Transcript, t, f.(transcript := Text(t)));
  }

  /** `prompt.replace('{{#if selectedElement}}', v)`. */
  lemma {:induction false} FillIfElement(f: Fill, schema: string, v: string)
    requires Filling(f) && f.ifElement == Hole(IfElement) && '$' !in v && '{' !in v
    ensures var f' := f.(ifElement := Text(v));
      && Filling(f')
      && ReplaceFirst(Render(Layout(f, schema)), Token(IfElement), v) == Render(Layout(f', schema))
  {
    SlotsWellNamed();
    FillingClear(f, IfElement);
    HeadFree(f, IfElement);
    FillInElement(f, schema, 0, IfElement, v, f.(ifElement := Text(v)));
  }

  /** `prompt.replace('{{selectedElement.tagName}}', v)`. */
  lemma {:induction false} FillTagName(f: Fill, schema: string, v: string)
    requires Filling(f) && f.tagName == Hole(TagName) && '$' !in v && '{' !in v
    ensures var f' := f.(tagName := Text(v));
      && Filling(f')
      && ReplaceFirst(Render(Layout(f, schema)), Token(TagName), v) == Render(Layout(f', schema))
  {
    SlotsWellNamed();
    FillingClear(f, TagName);
    HeadFree(f, TagName);
    FillInElement(f, schema, 2, TagName, v, f.(tagName := Text(v)));
  }

  /** `prompt.replace('{{selectedElement.textContent}}', v)`. */
  lemma {:induction false} FillTextContent(f: Fill, schema: string, v: string)
    requires Filling(f) && f.textContent == Hole(TextContent) && '$' !in v && '{' !in v
    ensures var f' := f.(textContent := Text(v));
      && Filling(f')
      && ReplaceFirst(Render(Layout(f, schema)), Token(TextContent), v) == Render(Layout(f', schema))
  {
    SlotsWellNamed();
    FillingClear(f, TextContent);
    HeadFree(f, TextContent);
    FillInElement(f, schema, 4, TextContent, v, f.(textContent := Text(v)));
  }

  /** `prompt.replace('{{#if selectedElement.computedStyles}}', v)`. */
  lemma {:induction false} FillIfStyles(f: Fill, schema: string, v: string)
    requires Filling(f) && f.ifStyles == Hole(IfStyles) && '$' !in v && '{' !in v
    ensures var f' := f.(ifStyles := Text(v));
      && Filling(f')
      && ReplaceFirst(Render(Layout(f, schema)), Token(IfStyles), v) == Render(Layout(f', schema))
  {
    SlotsWellNamed();
    FillingClear(f, IfStyles);
    HeadFree(f, IfStyles);
    ElementFree(f, IfStyles);
    SlotFreeAppend(Head(f), ElementBlock(f), IfStyles);
    FillInStyles(f, schema, 0, IfStyles, v, f.(ifStyles := Text(v)));
  }

  /** The font family is filled in. */
  lemma {:induction false} FillFontFamily(f: Fill, schema: string, v: string)
    requires Filling(f) && f.fontFamily == Hole(FontFamily) && '$' !in v && '{' !in v
    ensures var f' := f.(fontFamily := Text(v));
      && Filling(f')
      && ReplaceFirst(Render(Layout(f, schema)), Token(FontFamily), v) == Render(Layout(f', schema))
  {
    SlotsWellNamed();
    FillingClear(f, FontFamily);
    HeadFree(f, FontFamily);
    ElementFree(f, FontFamily);
    SlotFreeAppend(Head(f), ElementBlock(f), FontFamily);
    FillInStyles(f, schema, 2, FontFamily, v, f.(fontFamily := Text(v)));
  }

  /** The font weight is filled in. */
  lemma {:induction false} FillFontWeight(f: Fill, schema: string, v: string)
    requires Filling(f) && f.fontWeight == Hole(FontWeight) && '$' !in v && '{' !in v
    ensures var f' := f.(fontWeight := Text(v));
      && Filling(f')
      && ReplaceFirst(Render(Layout(f, schema)), Token(FontWeight), v) == Render(Layout(f', schema))
  {
    SlotsWellNamed();
    FillingClear(f, FontWeight);
    HeadFree(f, FontWeight);
    ElementFree(f, FontWeight);
    SlotFreeAppend(Head(f), ElementBlock(f), FontWeight);
    FillInStyles(f, schema, 4, FontWeight, v, f.(fontWeight := Text(v)));
  }

  /** The font size is filled in. */
  lemma {:induction false} FillFontSize(f: Fill, schema: string, v: string)
    requires Filling(f) && f.fontSize == Hole(FontSize) && '$' !in v && '{' !in v
    ensures var f' := f.(fontSize := Text(v));
      && Filling(f')
      && ReplaceFirst(Render(Layout(f, schema)), Token(FontSize), v) == Render(Layout(f', schema))
  {
    SlotsWellNamed();
    FillingClear(f, FontSize);
    HeadFree(f, FontSize);
    ElementFree(f, FontSize);
    SlotFreeAppend(Head(f), ElementBlock(f), FontSize);
    FillInStyles(f, schema, 6, FontSize, v, f.(fontSize := Text(v)));
  }

  /** The color is filled in. */
  lemma {:induction false} FillColor(f: Fill, schema: string, v: string)
    requires Filling(f) && f.color == Hole(Color) && '$' !in v && '{' !in v
    ensures var f' := f.(color := Text(v));
      && Filling(f')
      && ReplaceFirst(Render(Layout(f, schema)), Token(Color), v) == Render(Layout(f', schema))
  {
    SlotsWellNamed();
    FillingClear(f, Color);
    HeadFree(f, Color);
    ElementFree(f, Color);
    SlotFreeAppend(Head(f), ElementBlock(f), Color);
    FillInStyles(f, schema, 8, Color, v, f.(color := Text(v)));
  }

  /** The background color is filled in. */
  lemma {:induction false} FillBackgroundColor(f: Fill, schema: string, v: string)
    requires Filling(f) && f.backgroundColor == Hole(BackgroundColor) && '$' !in v && '{' !in v
    ensures var f' := f.(backgroundColor := Text(v));
      && Filling(f')
      && ReplaceFirst(Render(Layout(f, schema)), Token(BackgroundColor), v) == Render(Layout(f', schema))
  {
    SlotsWellNamed();
    FillingClear(f, BackgroundColor);
    HeadFree(f, BackgroundColor);
    ElementFree(f, BackgroundColor);
    SlotFreeAppend(Head(f), ElementBlock(f), BackgroundColor);
    FillInStyles(f, schema, 10, BackgroundColor, v, f.(backgroundColor := Text(v)));
  }

  /** The text alignment is filled in. */
  lemma {:induction false} FillTextAlign(f: Fill, schema: string, v: string)
    requires Filling(f) && f.textAlign == Hole(TextAlign) && '$' !in v && '{' !in v
    ensures var f' := f.(textAlign := Text(v));
      && Filling(f')
      && ReplaceFirst(Render(Layout(f, schema)), Token(TextAlign), v) == Render(Layout(f', schema))
  {
    SlotsWellNamed();
    FillingClear(f, TextAlign);
    HeadFree(f, TextAlign);
    ElementFree(f, TextAlign);
    SlotFreeAppend(Head(f), ElementBlock(f), TextAlign);
    FillInStyles(f, schema, 12, TextAlign, v, f.(textAlign := Text(v)));
  }

  /** `prompt.replace('{{/if}}', v)` while both `{{/if}}` are there: the first goes. */
  lemma {:induction false} FillEndIfStyles(f: Fill, schema: string, v: string)
    requires Filling(f) && f.endIfStyles == Hole(EndIf) && '$' !in v && '{' !in v
    ensures var f' := f.(endIfStyles := Text(v));
      && Filling(f')
      && ReplaceFirst(Render(Layout(f, schema)), Token(EndIf), v) == Render(Layout(f', schema))
  {
    SlotsWellNamed();
    FillingClear(f, EndIf);
    HeadFree(f, EndIf);
    ElementFree(f, EndIf);
    StylesFree(f, EndIf);
    SlotFreeAppend(Head(f), ElementBlock(f), EndIf);
    SlotFreeAppend(Head(f) + ElementBlock(f), StylesBlock(f), EndIf);
    FillInElse(f, schema, 0, EndIf, v, f.(endIfStyles := Text(v)));
  }

  /** `prompt.replace('{{else}}', v)`. */
  lemma {:induction false} FillElseBranch(f: Fill, schema: string, v: string)
    requires Filling(f) && f.elseBranch == Hole(Else) && '$' !in v && '{' !in v
    ensures var f' := f.(elseBranch := Text(v));
      && Filling(f')
      && ReplaceFirst(Render(Layout(f, schema)), Token(Else), v) == Render(Layout(f', schema))
  {
    SlotsWellNamed();
    FillingClear(f, Else);
    HeadFree(f, Else);
    ElementFree(f, Else);
    StylesFree(f, Else);
    SlotFreeAppend(Head(f), ElementBlock(f), Else);
    SlotFreeAppend(Head(f) + ElementBlock(f), StylesBlock(f), Else);
    FillInElse(f, schema, 2, Else, v, f.(elseBranch := Text(v)));
  }

  /** The text `p`, the whole of `g[k]`, with no occurrence before it, is replaced by `v`. */
  lemma {:induction false} ReplaceTextIn(pre: seq<Piece>, g: seq<Piece>, k: nat, p: string, post: seq<Piece>, v: string, n: nat)
    requires k < |g| && g[k] == Text(p) && '$' !in v && n == |pre| + k
    requires forall j :: 0 <= j < n ==> StartClear(pre + g + post, j, p)
    ensures ReplaceFirst(Render(pre + g + post), p, v) == Render(pre + g[k := Text(v)] + post)
  {
    var ps := pre + g + post;
    FindText(ps, n, p);
    ReplaceAt(ps, n, p, v);
    UpdateMiddle(pre, g, post, k, Text(v));
  }

  lemma {:induction false} UpdateMiddle(pre: seq<Piece>, g: seq<Piece>, post: seq<Piece>, k: nat, x: Piece)
    requires k < |g|
    ensures (pre + g + post)[|pre| + k := x] == pre + g[k := x] + post
  {
    assert (pre + g + post)[|pre| + k := x] == pre + g[k := x] + post;
  }

  /** No occurrence of the text `s` starts in piece `p`: it lacks the first letter, or is a short placeholder. */
  ghost predicate Skips(p: Piece, s: string)
    requires |s| > 0
  {
    || (p.Text? && s[0] !in p.text)
    || (p.Hole? && WellNamed(p.slot) && |Token(p.slot)| < |s|)
  }

  lemma {:induction false} SkipsClear(ps: seq<Piece>, j: nat, s: string)
    requires j < |ps| && |s| > 0 && '}' !in s && Skips(ps[j], s)
    ensures StartClear(ps, j, s)
  {
  }

  /** The state in which the no-element sentence is deleted. */
  function SentenceStage(s: seq<SentenceChar>, t: string): Fill {
    TemplateFill(s).(transcript := Text(t)).(ifElement := Text("")).(elseBranch := Text(ElseMarker))
  }

  lemma {:induction false} SentenceStageSkips(s: seq<SentenceChar>, t: string)
    requires |s| > 50 && s[0] == 'N'
    ensures var f := SentenceStage(s, t);
      && Skips(f.ifElement, s) && Skips(f.tagName, s) && Skips(f.textContent, s)
      && Skips(f.ifStyles, s) && Skips(f.fontFamily, s) && Skips(f.fontWeight, s) && Skips(f.fontSize, s)
      && Skips(f.color, s) && Skips(f.backgroundColor, s) && Skips(f.textAlign, s)
      && Skips(f.endIfStyles, s) && Skips(f.elseBranch, s)
  {
    SlotsWellNamed();
  }

  /** No occurrence of the sentence starts in the user's request. */
  lemma {:induction false} SentenceNotInHead(s: seq<SentenceChar>, t: string, schema: string)
    requires |s| > 50 && s[0] == 'N' && !Contains(t, s)
    ensures forall j :: 0 <= j < 3 ==> StartClear(Layout(SentenceStage(s, t), schema), j, s)
  {
    var ps := Layout(SentenceStage(s, t), schema);
    LabelsLackN();
    assert ps[0] == Text(UserRequestHeading) && ps[1] == Text(t) && ps[2] == Text(SelectedElementHeading);
    assert PieceText(ps[2])[0] == '"';
    SkipsClear(ps, 0, s);
    SkipsClear(ps, 2, s);
  }

  /** Nor in the element's lines. */
  lemma {:induction false} SentenceNotInElement(s: seq<SentenceChar>, t: string, schema: string)
    requires |s| > 50 && s[0] == 'N'
    ensures forall j :: 3 <= j < 9 ==> StartClear(Layout(SentenceStage(s, t), schema), j, s)
  {
    var f := SentenceStage(s, t);
    var ps := Layout(f, schema);
    SentenceStageSkips(s, t);
    LabelsLackN();
    forall j | 3 <= j < 9
      ensures StartClear(ps, j, s)
    {
      assert ps[j] == ElementBlock(f)[j - 3];
      SkipsClear(ps, j, s);
    }
  }

  /** Nor in the styles' lines. */
  lemma {:induction false} SentenceNotInStyles(s: seq<SentenceChar>, t: string, schema: string)
    requires |s| > 50 && s[0] == 'N'
    ensures forall j :: 9 <= j < 23 ==> StartClear(Layout(SentenceStage(s, t), schema), j, s)
  {
    var f := SentenceStage(s, t);
    var ps := Layout(f, schema);
    SentenceStageSkips(s, t);
    LabelsLackN();
    StyleLabelsLackN();
    forall j | 9 <= j < 23
      ensures StartClear(ps, j, s)
    {
      assert ps[j] == StylesBlock(f)[j - 9];
      SkipsClear(ps, j, s);
    }
  }

  /** Nor in the lines before it. */
  lemma {:induction false} SentenceNotInElse(s: seq<SentenceChar>, t: string, schema: string)
    requires |s| > 50 && s[0] == 'N'
    ensures forall j :: 23 <= j < 27 ==> StartClear(Layout(SentenceStage(s, t), schema), j, s)
  {
    var f := SentenceStage(s, t);
    var ps := Layout(f, schema);
    SentenceStageSkips(s, t);
    LabelsLackN();
    forall j | 23 <= j < 27
      ensures StartClear(ps, j, s)
    {
      assert ps[j] == ElseBlock(f)[j - 23];
      SkipsClear(ps, j, s);
    }
  }

  lemma {:induction false} SentenceNotBefore(s: seq<SentenceChar>, t: string, schema: string)
    requires |s| > 50 && s[0] == 'N' && !Contains(t, s)
    ensures forall j :: 0 <= j < 27 ==> StartClear(Layout(SentenceStage(s, t), schema), j, s)
  {
    SentenceNotInHead(s, t, schema);
    SentenceNotInElement(s, t, schema);
    SentenceNotInStyles(s, t, schema);
    SentenceNotInElse(s, t, schema);
  }

  /**
   * `prompt.replace(<the no-element sentence>, '')`: the transcript before it neither holds
   * the sentence nor can run into it, since the sentence has no `"`.
   */
  lemma {:induction false} DropSentence(s: seq<SentenceChar>, t: string, schema: string)
    requires |s| > 50 && s[0] == 'N' && !Contains(t, s)
    ensures var f := SentenceStage(s, t);
      ReplaceFirst(Render(Layout(f, schema)), s, "") == Render(Layout(f.(sentence := Text("")), schema))
  {
    var f := SentenceStage(s, t);
    SentenceNotBefore(s, t, schema);
    assert Layout(f, schema) == Head(f) + ElementBlock(f) + StylesBlock(f) + ElseBlock(f) + PageBlock(f, schema);
    ReplaceTextIn(Head(f) + ElementBlock(f) + StylesBlock(f), ElseBlock(f), 4, s, PageBlock(f, schema), "", 27);
    assert ElseBlock(f)[4 := Text("")] == ElseBlock(f.(sentence := Text("")));
  }

  /** The text of pieces around a placeholder. */
  lemma {:induction false} RenderBefore(a: seq<Piece>, x: Slot, m: seq<Piece>)
    ensures Render(a + [Hole(x)] + m) == Render(a) + Token(x) + Render(m)
  {
    RenderAppend(a + [Hole(x)], m);
    RenderAppend(a, [Hole(x)]);
    RenderOne(Hole(x));
  }

  lemma {:induction false} RenderOne(p: Piece)
    ensures Render([p]) == PieceText(p)
  {
    RenderCons([p]);
    assert [p][1..] == [];
  }

  /** The text of pieces around two placeholders. */
  lemma {:induction false} RenderAround(a: seq<Piece>, x: Slot, m: seq<Piece>, y: Slot, b: seq<Piece>)
    ensures Render(a + [Hole(x)] + m + [Hole(y)] + b)
      == Render(a) + Token(x) + Render(m) + Token(y) + Render(b)
  {
    RenderBefore(a + [Hole(x)] + m, y, b);
    RenderBefore(a, x, m);
  }

  /** The first `x` is found at the end of `a`. */
  lemma {:induction false} FindFirstAround(a: seq<Piece>, x: Slot, m: seq<Piece>, y: Slot, b: seq<Piece>)
    requires WellNamed(x) && SlotFree(a, x)
    ensures IndexOf(Render(a + [Hole(x)] + m + [Hole(y)] + b), Token(x)) == |Render(a)|
  {
    var ps := a + [Hole(x)] + m + [Hole(y)] + b;
    assert ps[0..|a|] == ps[..|a|] == a;
    assert ps[..0] == [];
    FindToken(ps, 0, |a|, x);
  }

  /** The first `y` from there is found at the end of `m`. */
  lemma {:induction false} FindNextAround(a: seq<Piece>, x: Slot, m: seq<Piece>, y: Slot, b: seq<Piece>)
    requires WellNamed(x) && WellNamed(y) && x != y && SlotFree(m, y)
    ensures IndexOfFrom(Render(a + [Hole(x)] + m + [Hole(y)] + b), Token(y), |Render(a)|)
      == |Render(a + [Hole(x)] + m)|
  {
    var ps := a + [Hole(x)] + m + [Hole(y)] + b;
    var n := |a| + 1 + |m|;
    assert ps[|a|..n] == [Hole(x)] + m;
    assert SlotFree(ps[|a|..n], y);
    assert ps[..|a|] == a;
    assert ps[..n] == a + [Hole(x)] + m;
    FindToken(ps, |a|, n, y);
  }

  /** Cutting out the first `p` is replacing it by nothing. */
  lemma {:induction false} CutIsReplace(r: string, p: string)
    requires IndexOf(r, p) > -1
    ensures var i := IndexOf(r, p);
      Substring(r, 0, i) + SubstringFrom(r, i + |p|) == ReplaceFirst(r, p, "")
  {
  }

  /** Pieces `a` and `b` are what is left when the first `x`, through the next `y`, is cut out. */
  lemma {:induction false} CutBetween(a: seq<Piece>, x: Slot, m: seq<Piece>, y: Slot, b: seq<Piece>, r: string)
    requires WellNamed(x) && WellNamed(y) && x != y && SlotFree(a, x) && SlotFree(m, y)
    requires r == Render(a + [Hole(x)] + m + [Hole(y)] + b)
    ensures var e := IndexOf(r, Token(x));
      var i := IndexOfFrom(r, Token(y), e) + |Token(y)|;
      && e > -1 && i > e
      && Substring(r, 0, e) + SubstringFrom(r, i) == Render(a + b)
  {
    LocateAround(a, x, m, y, b, r);
    CutCore(r, Render(a), Token(x), Render(m), Token(y), Render(b));
    RenderAppend(a, b);
  }

  /** Cutting `tx + rm + ty` out of `ra + tx + rm + ty + rb`, once both are located, leaves `ra + rb`. */
  lemma {:induction false} CutCore(r: string, ra: string, tx: string, rm: string, ty: string, rb: string)
    requires r == ra + tx + rm + ty + rb && |tx| > 0
    requires IndexOf(r, tx) == |ra| && IndexOfFrom(r, ty, |ra|) == |ra| + |tx| + |rm|
    ensures var e := IndexOf(r, tx);
      var i := IndexOfFrom(r, ty, e) + |ty|;
      && e > -1 && i > e
      && Substring(r, 0, e) + SubstringFrom(r, i) == ra + rb
  {
    var e, i := |ra|, |ra| + |tx| + |rm| + |ty|;
    assert r[..e] == ra;
    assert r[i..] == rb;
  }

  /** What lies between `tx` and `ty` in `ra + tx + rm + ty + rb`, and what follows `ty`, once both are located. */
  lemma {:induction false} KeepCore(r: string, ra: string, tx: string, rm: string, ty: string, rb: string)
    requires r == ra + tx + rm + ty + rb
    requires IndexOf(r, tx) == |ra| && IndexOfFrom(r, ty, |ra|) == |ra| + |tx| + |rm|
    ensures var e := IndexOf(r, tx);
      var i := IndexOfFrom(r, ty, e);
      && e > -1 && i > -1
      && Substring(r, e + |tx|, i) == rm && SubstringFrom(r, i + |ty|) == rb
  {
    var e, i := |ra|, |ra| + |tx| + |rm|;
    assert r[e + |tx|..i] == rm;
    assert r[i + |ty|..] == rb;
  }

  /** The text of `a + [Hole(x)] + m + [Hole(y)] + b`, and where its first `x` and the next `y` are. */
  lemma {:induction false} LocateAround(a: seq<Piece>, x: Slot, m: seq<Piece>, y: Slot, b: seq<Piece>, r: string)
    requires WellNamed(x) && WellNamed(y) && x != y && SlotFree(a, x) && SlotFree(m, y)
    requires r == Render(a + [Hole(x)] + m + [Hole(y)] + b)
    ensures r == Render(a) + Token(x) + Render(m) + Token(y) + Render(b)
    ensures IndexOf(r, Token(x)) == |Render(a)|
    ensures IndexOfFrom(r, Token(y), |Render(a)|) == |Render(a)| + |Token(x)| + |Render(m)|
  {
    FindFirstAround(a, x, m, y, b);
    FindNextAround(a, x, m, y, b);
    RenderAround(a, x, m, y, b);
    RenderBefore(a, x, m);
  }

  /** Pieces `m` lie between the first `x` and the next `y` of text `r`, and pieces `b` follow. */
  lemma {:induction false} KeepBetween(a: seq<Piece>, x: Slot, m: seq<Piece>, y: Slot, b: seq<Piece>, r: string)
    requires WellNamed(x) && WellNamed(y) && x != y && SlotFree(a, x) && SlotFree(m, y)
    requires r == Render(a + [Hole(x)] + m + [Hole(y)] + b)
    ensures var e := IndexOf(r, Token(x));
      var i := IndexOfFrom(r, Token(y), e);
      && e > -1 && i > -1
      && Substring(r, e + |Token(x)|, i) == Render(m) && SubstringFrom(r, i + |Token(y)|) == Render(b)
  {
    LocateAround(a, x, m, y, b, r);
    KeepCore(r, Render(a), Token(x), Render(m), Token(y), Render(b));
  }

  /** The template around the styles' lines. */
  lemma {:induction false} LayoutAroundStyles(f: Fill, schema: string)
    requires f.ifStyles == Hole(IfStyles) && f.endIf == Hole(EndIf)
    ensures Layout(f, schema) == Head(f) + ElementBlock(f) + [Hole(IfStyles)]
      + (StylesBlock(f)[1..] + ElseBlock(f)[..6]) + [Hole(EndIf)] + PageBlock(f, schema)
  {
  }

  lemma {:induction false} StylesBlockFree(f: Fill)
    requires Filling(f) && f.endIfStyles.Text?
    ensures SlotFree(Head(f) + ElementBlock(f), IfStyles)
    ensures SlotFree(StylesBlock(f)[1..] + ElseBlock(f)[..6], EndIf)
  {
    SlotsWellNamed();
    FillingClear(f, IfStyles);
    FillingClear(f, EndIf);
    HeadFree(f, IfStyles);
    ElementFree(f, IfStyles);
    SlotFreeAppend(Head(f), ElementBlock(f), IfStyles);
    StylesFree(f, EndIf);
    assert SlotFree(ElseBlock(f)[..6], EndIf);
    SlotFreeAppend(StylesBlock(f)[1..], ElseBlock(f)[..6], EndIf);
  }

  /**
   * With no computed styles, the text from `{{#if selectedElement.computedStyles}}` to the end
   * of the next `{{/if}}` is cut out: what is left is the request, the element's lines and the
   * page context.
   */
  lemma {:induction false} CutStyles(f: Fill, schema: string, r: string)
    requires Filling(f) && f.ifStyles == Hole(IfStyles) && f.endIfStyles.Text? && f.endIf == Hole(EndIf)
    requires r == Render(Layout(f, schema))
    ensures var a := IndexOf(r, Token(IfStyles));
      var b := IndexOfFrom(r, Token(EndIf), a) + 7;
      && a > -1 && b > a
      && Substring(r, 0, a) + SubstringFrom(r, b) == Render(Head(f) + ElementBlock(f) + PageBlock(f, schema))
  {
    LayoutAroundStyles(f, schema);
    StylesBlockFree(f);
    SlotsWellNamed();
    TokenLengths();
    CutBetween(Head(f) + ElementBlock(f), IfStyles,
      StylesBlock(f)[1..] + ElseBlock(f)[..6], EndIf, PageBlock(f, schema), r);
  }

  /** `{{/if}}` is 7 characters long and `{{else}}` 8, as the cuts count them. */
  lemma {:induction false} TokenLengths()
    ensures |Token(EndIf)| == 7 && |Token(Else)| == 8
  {
  }

  /** The last `{{/if}}` stands at piece 29. */
  lemma {:induction false} EndIfPresent(f: Fill, schema: string)
    requires f.endIf == Hole(EndIf)
    ensures IndexOf(Render(Layout(f, schema)), Token(EndIf)) > -1
  {
    var ps := Layout(f, schema);
    var r := Render(ps);
    assert ps[29] == Hole(EndIf);
    RenderAt(ps, 29);
    assert r[|Render(ps[..29])|..|Render(ps[..29])| + |Token(EndIf)|] == Token(EndIf);
    assert OccursAt(r, Token(EndIf), |Render(ps[..29])|);
  }

  /**
   * With computed styles, the one `{{/if}}` left, found by `indexOf`, is cut out: the same as
   * replacing it by nothing.
   */
  lemma {:induction false} CutEndIf(f: Fill, schema: string)
    requires Filling(f) && f.endIfStyles.Text? && f.endIf == Hole(EndIf)
    ensures var r := Render(Layout(f, schema));
      var i := IndexOf(r, Token(EndIf));
      && i > -1
      && Substring(r, 0, i) + SubstringFrom(r, i + 7) == Render(Layout(f.(endIf := Text("")), schema))
  {
    EndIfPresent(f, schema);
    FillEndIf(f, schema);
    TokenLengths();
    CutIsReplace(Render(Layout(f, schema)), Token(EndIf));
  }

  /** The one `{{/if}}` left is replaced by nothing. */
  lemma {:induction false} FillEndIf(f: Fill, schema: string)
    requires Filling(f) && f.endIfStyles.Text? && f.endIf == Hole(EndIf)
    ensures ReplaceFirst(Render(Layout(f, schema)), Token(EndIf), "")
      == Render(Layout(f.(endIf := Text("")), schema))
  {
    SlotsWellNamed();
    FillingClear(f, EndIf);
    HeadFree(f, EndIf);
    ElementFree(f, EndIf);
    StylesFree(f, EndIf);
    SlotFreeAppend(Head(f), ElementBlock(f), EndIf);
    SlotFreeAppend(Head(f) + ElementBlock(f), StylesBlock(f), EndIf);
    FillInElse(f, schema, 6, EndIf, "", f.(endIf := Text("")));
  }

  /** The state in which, with no element selected, the `{{else}}` branch is kept. */
  function NoElementStage(s: seq<SentenceChar>, t: string): Fill {
    TemplateFill(s).(transcript := Text(t)).(ifElement := Text(NoElementMarker))
  }

  /** The marker that replaced `{{#if selectedElement}}` is found right after the request. */
  lemma {:induction false} FindNoElementMarker(s: seq<SentenceChar>, t: string, schema: string)
    requires '<' !in t
    ensures var f := NoElementStage(s, t);
      IndexOf(Render(Layout(f, schema)), NoElementMarker) == |Render(Head(f))|
  {
    var f := NoElementStage(s, t);
    var ps := Layout(f, schema);
    assert ps[3] == Text(NoElementMarker);
    assert forall j :: 0 <= j < 3 ==> StartClear(ps, j, NoElementMarker);
    FindText(ps, 3, NoElementMarker);
    assert ps[..3] == Head(f);
  }

  /** The template around the `{{else}}` branch. */
  lemma {:induction false} LayoutAroundElse(f: Fill, schema: string)
    requires f.elseBranch == Hole(Else) && f.endIf == Hole(EndIf)
    ensures Layout(f, schema) == Head(f) + (ElementBlock(f) + StylesBlock(f) + ElseBlock(f)[..2]) + [Hole(Else)]
      + ElseBlock(f)[3..6] + [Hole(EndIf)] + PageBlock(f, schema)
  {
  }

  lemma {:induction false} ElseBranchFree(s: seq<SentenceChar>, t: string)
    requires '{' !in t
    ensures var f := NoElementStage(s, t);
      && SlotFree(Head(f) + (ElementBlock(f) + StylesBlock(f) + ElseBlock(f)[..2]), Else)
      && SlotFree(ElseBlock(f)[3..6], EndIf)
  {
    NoElementFilling(s, t);
    FillingElseFree(NoElementStage(s, t));
  }

  lemma {:induction false} NoElementFilling(s: seq<SentenceChar>, t: string)
    requires '{' !in t
    ensures Filling(NoElementStage(s, t))
  {
  }

  /** In a filling, no piece before `{{else}}` is `{{else}}`, and none of the branch is `{{/if}}`. */
  lemma {:induction false} FillingElseFree(f: Fill)
    requires Filling(f)
    ensures SlotFree(Head(f) + (ElementBlock(f) + StylesBlock(f) + ElseBlock(f)[..2]), Else)
    ensures SlotFree(ElseBlock(f)[3..6], EndIf)
  {
    SlotsWellNamed();
    FillingClear(f, Else);
    HeadFree(f, Else);
    ElementFree(f, Else);
    StylesFree(f, Else);
    assert SlotFree(ElseBlock(f)[..2], Else);
    SlotFreeAppend(ElementBlock(f), StylesBlock(f), Else);
    SlotFreeAppend(ElementBlock(f) + StylesBlock(f), ElseBlock(f)[..2], Else);
    SlotFreeAppend(Head(f), ElementBlock(f) + StylesBlock(f) + ElseBlock(f)[..2], Else);
    assert ElseBlock(f)[3..6] == [Text(Newline), f.sentence, Text(Newline)];
  }

  /** The text of the request followed by more pieces starts with the request. */
  lemma {:induction false} RenderStarts(a: seq<Piece>, b: seq<Piece>)
    ensures |Render(a)| <= |Render(a + b)| && Render(a + b)[..|Render(a)|] == Render(a)
  {
    RenderAppend(a, b);
  }

  /**
   * With no element selected, the request is kept, then the text between `{{else}}` and the
   * next `{{/if}}`, then the page context.
   */
  lemma {:induction false} KeepElseBranch(s: seq<SentenceChar>, t: string, schema: string, r: string, e: int, i: int)
    requires '<' !in t && '{' !in t
    requires r == Render(Layout(NoElementStage(s, t), schema))
    requires e == IndexOf(r, Token(Else)) && i == IndexOfFrom(r, Token(EndIf), e)
    ensures e > -1 && i > -1
    ensures Substring(r, 0, IndexOf(r, NoElementMarker)) + Substring(r, e + 8, i) + SubstringFrom(r, i + 7)
      == Render(Head(NoElementStage(s, t))) + Render(NoElementPieces(s)) + Render(PageBlock(NoElementStage(s, t), schema))
  {
    KeepHead(s, t, schema, r);
    KeepElse(s, t, schema, r);
  }

  /** The request part of the template is what precedes the no-element marker. */
  lemma {:induction false} KeepHead(s: seq<SentenceChar>, t: string, schema: string, r: string)
    requires '<' !in t
    requires r == Render(Layout(NoElementStage(s, t), schema))
    ensures Substring(r, 0, IndexOf(r, NoElementMarker)) == Render(Head(NoElementStage(s, t)))
  {
    var f := NoElementStage(s, t);
    FindNoElementMarker(s, t, schema);
    HeadStarts(f, schema);
  }

  /** The template's text opens with the text of its request part. */
  lemma {:induction false} HeadStarts(f: Fill, schema: string)
    ensures var r := Render(Layout(f, schema));
      |Render(Head(f))| <= |r| && r[..|Render(Head(f))|] == Render(Head(f))
  {
    var rest := ElementBlock(f) + StylesBlock(f) + ElseBlock(f) + PageBlock(f, schema);
    assert Layout(f, schema) == Head(f) + rest;
    RenderStarts(Head(f), rest);
  }

  /** The no-element sentence lies between `{{else}}` and the next `{{/if}}`; the page context follows. */
  lemma {:induction false} KeepElse(s: seq<SentenceChar>, t: string, schema: string, r: string)
    requires '<' !in t && '{' !in t
    requires r == Render(Layout(NoElementStage(s, t), schema))
    ensures var f := NoElementStage(s, t);
      var e := IndexOf(r, Token(Else));
      var i := IndexOfFrom(r, Token(EndIf), e);
      && e > -1 && i > -1
      && Substring(r, e + 8, i) == Render(NoElementPieces(s)) && SubstringFrom(r, i + 7) == Render(PageBlock(f, schema))
  {
    ElseBranchFree(s, t);
    KeepElseBlock(NoElementStage(s, t), schema, r);
    ElseMiddle(s, t);
  }

  /** Between `{{else}}` and `{{/if}}` of the no-element template lies the sentence, on its own line. */
  lemma {:induction false} ElseMiddle(s: seq<SentenceChar>, t: string)
    ensures ElseBlock(NoElementStage(s, t))[3..6] == NoElementPieces(s)
  {
    var f := NoElementStage(s, t);
    assert ElseBlock(f)[3..6] == [Text(Newline), f.sentence, Text(Newline)];
  }

  /** The pieces between `{{else}}` and the next `{{/if}}` of a template whose branch is still open. */
  lemma {:induction false} KeepElseBlock(f: Fill, schema: string, r: string)
    requires f.elseBranch == Hole(Else) && f.endIf == Hole(EndIf)
    requires SlotFree(Head(f) + (ElementBlock(f) + StylesBlock(f) + ElseBlock(f)[..2]), Else)
    requires SlotFree(ElseBlock(f)[3..6], EndIf)
    requires r == Render(Layout(f, schema))
    ensures var e := IndexOf(r, Token(Else));
      var i := IndexOfFrom(r, Token(EndIf), e);
      && e > -1 && i > -1
      && Substring(r, e + 8, i) == Render(ElseBlock(f)[3..6]) && SubstringFrom(r, i + 7) == Render(PageBlock(f, schema))
  {
    LayoutAroundElse(f, schema);
    SlotsWellNamed();
    TokenLengths();
    KeepBetween(Head(f) + (ElementBlock(f) + StylesBlock(f) + ElseBlock(f)[..2]), Else, ElseBlock(f)[3..6], EndIf,
      PageBlock(f, schema), r);
  }

  // ---------------------------------------------------------------------------
  // The page context, after whichever branch

  /** The URL replaces `{{pageContext.url}}` when what precedes the page lines holds no such slot. */
  lemma {:induction false} FillPageUrl(body: seq<Piece>, f: Fill, schema: string, v: string)
    requires SlotFree(body, Url) && f.url == Hole(Url) && '$' !in v
    ensures ReplaceFirst(Render(body + PageBlock(f, schema)), Token(Url), v)
      == Render(body + PageBlock(f.(url := Text(v)), schema))
  {
    var g := PageBlock(f, schema);
    SlotsWellNamed();
    assert body + g + [] == body + g;
    assert SlotFree(g[..1], Url);
    ReplaceIn(body, g, 1, Url, [], v);
    assert body + g[1 := Text(v)] + [] == body + PageBlock(f.(url := Text(v)), schema);
  }

  /** The title then replaces `{{pageContext.title}}`. */
  lemma {:induction false} FillPageTitle(body: seq<Piece>, f: Fill, schema: string, v: string)
    requires SlotFree(body, Title) && f.url.Text? && '{' !in f.url.text && f.title == Hole(Title) && '$' !in v
    ensures ReplaceFirst(Render(body + PageBlock(f, schema)), Token(Title), v)
      == Render(body + PageBlock(f.(title := Text(v)), schema))
  {
    var g := PageBlock(f, schema);
    SlotsWellNamed();
    assert body + g + [] == body + g;
    assert SlotFree(g[..3], Title);
    ReplaceIn(body, g, 3, Title, [], v);
    assert body + g[3 := Text(v)] + [] == body + PageBlock(f.(title := Text(v)), schema);
  }

  // ---------------------------------------------------------------------------
  // The final deletions

  /** Filled-in text that neither deletion touches. */
  predicate Bare(ps: seq<Piece>) {
    forall j :: 0 <= j < |ps| ==> ps[j].Text? && '{' !in ps[j].text && '<' !in ps[j].text
  }

  /** Bare pieces hold no slot, and their text no `{` and no `<`. */
  lemma {:induction false} BareText(ps: seq<Piece>)
    requires Bare(ps)
    ensures forall x: Slot :: WellNamed(x) ==> SlotFree(ps, x)
    ensures '{' !in Render(ps) && '<' !in Render(ps)
  {
    RenderAvoids(ps, '{');
    RenderAvoids(ps, '<');
  }

  /** The deletion of comment markers, then of placeholders, as the prompt's last two steps. */
  function Cleanup(s: string): string {
    StripPlaceholders(StripComments(s))
  }

  lemma {:induction false} NoTail(s: string)
    ensures s + "" == s
  {
  }

  /** The schema passes through both deletions untouched. */
  lemma {:induction false} SchemaClean()
    ensures StripComments(OutputSchema) == OutputSchema
    ensures StripPlaceholders(OutputSchema) == OutputSchema
  {
    OutputSchemaKept("");
    NoTail(OutputSchema);
    CommentsKeep(OutputSchema, "");
  }

  /** Text free of `{` and `<` before clean text survives both deletions, and so does the clean text. */
  lemma {:induction false} CleanedOver(a: string, c: string)
    requires '{' !in a && '<' !in a && StripComments(c) == c && StripPlaceholders(c) == c
    ensures StripComments(a + c) == a + c && Cleanup(a + c) == a + c
  {
    CommentsKeep(a, c);
    PlaceholdersKeep(a, c);
  }

  lemma {:induction false} CleanedMarkerOver(a: string, b: string, c: string)
    requires '{' !in a && '<' !in a && '{' !in b && '<' !in b
    requires StripComments(c) == c && StripPlaceholders(c) == c
    ensures Cleanup(a + ElseMarker + b + c) == a + b + c
  {
    var m := ElseMarker;
    MarkerGone(b + c);
    CleanedOver(b, c);
    CommentsKeep(a, m + (b + c));
    Associative(a, m, b + c);
    Associative(a + m, b, c);
    Associative(a, b, c);
    PlaceholdersKeep(a, b + c);
  }

  /** The `<!-- else -->` marker matches the comment pattern. */
  lemma {:induction false} MarkerGone(b: string)
    ensures StripComments(ElseMarker + b) == StripComments(b)
  {
    assert ElseMarker == "<!-- " + "else" + " -->";
    CommentDropped("else", b);
  }

  // ---------------------------------------------------------------------------
  // The text of each block once filled in

  /** The fill shows element `e`: its opening `{{#if}}` gone, its tag and text in place. */
  predicate ShowsElement(f: Fill, e: PromptElement) {
    f.ifElement == Text("") && f.tagName == Text(ShownTag(e)) && f.textContent == Text(ShownText(e))
  }

  /** The fill shows the computed styles `st`. */
  predicate ShowsStyles(f: Fill, st: ComputedStyles) {
    && f.ifStyles == Text("") && f.fontFamily == Text(StyleText(st.fontFamily))
    && f.fontWeight == Text(StyleText(st.fontWeight)) && f.fontSize == Text(StyleText(st.fontSize))
    && f.color == Text(StyleText(st.color)) && f.backgroundColor == Text(StyleText(st.backgroundColor))
    && f.textAlign == Text(StyleText(st.textAlign))
  }

  /** The fill shows the page context. */
  predicate ShowsPage(f: Fill, page: Option<PageContext>) {
    f.url == Text(PageUrl(page)) && f.title == Text(PageTitle(page))
  }

  lemma {:induction false} ElementText(f: Fill, e: PromptElement)
    requires ShowsElement(f, e)
    ensures Render(ElementBlock(f)) == Render(ElementPieces(e))
  {
    RenderCons(ElementBlock(f));
    assert ElementBlock(f)[1..] == ElementPieces(e);
  }

  lemma {:induction false} StylesText(f: Fill, st: ComputedStyles)
    requires ShowsStyles(f, st)
    ensures Render(StylesBlock(f)) == Render(StylePieces(st))
  {
    RenderCons(StylesBlock(f));
    assert StylesBlock(f)[1..] == StylePieces(st);
  }

  /** What is left of the `{{else}}` branch once an element with styles is shown. */
  lemma {:induction false} ElseText(f: Fill)
    requires f.endIfStyles == Text("") && f.elseBranch == Text(ElseMarker)
    requires f.sentence == Text("") && f.endIf == Text("")
    ensures Render(ElseBlock(f)) == Newline + ElseMarker + Newline + Newline
  {
    var a, b := [Text(""), Text(Newline), Text(ElseMarker)], [Text(Newline), Text(""), Text(Newline), Text("")];
    assert ElseBlock(f) == a + b;
    RenderAppend(a, b);
    RenderThree(a[0], a[1], a[2]);
    assert b == [b[0]] + [b[1], b[2], b[3]];
    RenderAppend([b[0]], [b[1], b[2], b[3]]);
    RenderOne(b[0]);
    RenderThree(b[1], b[2], b[3]);
  }

  lemma {:induction false} BlankLinesText()
    ensures Render(BlankLines) == Newline + Newline + Newline
  {
    RenderThree(Text(Newline), Text(Newline), Text(Newline));
  }

  lemma {:induction false} RenderThree(p: Piece, q: Piece, o: Piece)
    ensures Render([p, q, o]) == PieceText(p) + PieceText(q) + PieceText(o)
  {
    RenderCons([p, q, o]);
    assert [p, q, o][1..] == [q, o];
    RenderCons([q, o]);
    assert [q, o][1..] == [o];
    RenderOne(o);
  }

  /** The page lines before the schema. */
  function PageLines(url: string, title: string): seq<Piece> {
    [Text(PageHeading), Text(url), Text(TitleLabel), Text(title)]
  }

  lemma {:induction false} PageText(f: Fill, url: string, title: string, schema: string)
    requires f.url == Text(url) && f.title == Text(title)
    ensures Render(PageBlock(f, schema)) == Render(PagePieces(url, title, schema))
    ensures Render(PagePieces(url, title, schema)) == Render(PageLines(url, title)) + schema
  {
    assert PagePieces(url, title, schema) == PageLines(url, title) + [Text(schema)];
    RenderAppend(PageLines(url, title), [Text(schema)]);
    RenderOne(Text(schema));
  }

  /** The shown tag and text are as plain as the element's own. */
  lemma {:induction false} PlainShown(e: PromptElement)
    requires PlainElement(e)
    ensures Plain(ShownTag(e)) && Plain(ShownText(e))
  {
    var s, r := e.textContent.GetOr(""), ShownText(e);
    forall c | c in r
      ensures c in s
    {
      var i :| 0 <= i < |r| && r[i] == c;
      assert s[i] == c;
    }
  }

  lemma {:induction false} PlainPage(page: Option<PageContext>)
    requires page.Some? ==> Plain(page.value.url) && Plain(page.value.title)
    ensures Plain(PageUrl(page)) && Plain(PageTitle(page))
  {
  }

  lemma {:induction false} HeaderBare(t: string)
    requires '{' !in t && '<' !in t
    ensures Bare(HeaderPieces(t))
  {
  }

  lemma {:induction false} ElementBare(e: PromptElement)
    requires PlainElement(e)
    ensures Bare(ElementPieces(e))
  {
    PlainShown(e);
  }

  lemma {:induction false} StylesBare(st: ComputedStyles)
    requires PlainStyles(st)
    ensures Bare(StylePieces(st))
  {
  }

  lemma {:induction false} PageBare(page: Option<PageContext>)
    requires page.Some? ==> Plain(page.value.url) && Plain(page.value.title)
    ensures Bare(PageLines(PageUrl(page), PageTitle(page)))
  {
    PlainPage(page);
  }

  lemma {:induction false} SentenceBare(s: seq<SentenceChar>)
    ensures Bare(NoElementPieces(s))
  {
  }

  // ---------------------------------------------------------------------------
  // The prompt, case by case

  /** With an element and its styles: the text left after the deletions is the expected prompt. */
  lemma {:induction false} FinishStyled(f: Fill, t: string, e: PromptElement, page: Option<PageContext>, s: string, schema: string)
    requires PlainInputs(t, Some(e), page) && e.computedStyles.Some?
    requires StripComments(schema) == schema && StripPlaceholders(schema) == schema
    requires f.transcript == Text(t) && ShowsElement(f, e) && ShowsStyles(f, e.computedStyles.value)
    requires f.endIfStyles == Text("") && f.elseBranch == Text(ElseMarker)
    requires f.sentence == Text("") && f.endIf == Text("") && ShowsPage(f, page)
    ensures Cleanup(Render(Layout(f, schema))) == Render(PromptPieces(t, Some(e), page, s, schema))
  {
    var st := e.computedStyles.value;
    var url, title := PageUrl(page), PageTitle(page);
    HeaderBare(t);
    ElementBare(e);
    StylesBare(st);
    PageBare(page);
    BareText(HeaderPieces(t));
    BareText(ElementPieces(e));
    BareText(StylePieces(st));
    BareText(PageLines(url, title));
    var h, el, sl, pl := Render(HeaderPieces(t)), Render(ElementPieces(e)), Render(StylePieces(st)), Render(PageLines(url, title));
    StyledText(f, t, e, page, schema);
    ExpectedStyledText(t, e, page, s, schema);
    CleanedMarkerOver(h + el + sl + Newline, Newline + Newline + pl, schema);
  }

  /** The filled template's text, with an element and its styles shown. */
  lemma {:induction false} StyledText(f: Fill, t: string, e: PromptElement, page: Option<PageContext>, schema: string)
    requires e.computedStyles.Some?
    requires f.transcript == Text(t) && ShowsElement(f, e) && ShowsStyles(f, e.computedStyles.value)
    requires f.endIfStyles == Text("") && f.elseBranch == Text(ElseMarker)
    requires f.sentence == Text("") && f.endIf == Text("") && ShowsPage(f, page)
    ensures Render(Layout(f, schema))
      == (Render(HeaderPieces(t)) + Render(ElementPieces(e)) + Render(StylePieces(e.computedStyles.value)) + Newline)
        + ElseMarker + (Newline + Newline + Render(PageLines(PageUrl(page), PageTitle(page)))) + schema
  {
    LayoutText(f, schema);
    ElementText(f, e);
    StylesText(f, e.computedStyles.value);
    ElseText(f);
    PageText(f, PageUrl(page), PageTitle(page), schema);
    assert Head(f) == HeaderPieces(t);
    RegroupStyled(Render(Layout(f, schema)), Render(HeaderPieces(t)), Render(ElementPieces(e)),
      Render(StylePieces(e.computedStyles.value)), Newline, ElseMarker, Render(PageLines(PageUrl(page), PageTitle(page))), schema);
  }

  lemma {:induction false} RegroupStyled(r: string, h: string, e: string, s: string, n: string, m: string, p: string, c: string)
    requires r == h + e + s + (n + m + n + n) + (p + c)
    ensures r == (h + e + s + n) + m + (n + n + p) + c
  {
  }

  lemma {:induction false} RegroupExpected(r: string, h: string, e: string, s: string, n: string, p: string, c: string)
    requires r == h + (e + s + (n + n + n)) + (p + c)
    ensures r == (h + e + s + n) + (n + n + p) + c
  {
  }

  /** The template's text, block by block. */
  lemma {:induction false} LayoutText(f: Fill, schema: string)
    ensures Render(Layout(f, schema)) == Render(Head(f)) + Render(ElementBlock(f)) + Render(StylesBlock(f))
      + Render(ElseBlock(f)) + Render(PageBlock(f, schema))
  {
    RenderAppend(Head(f) + ElementBlock(f) + StylesBlock(f) + ElseBlock(f), PageBlock(f, schema));
    RenderAppend(Head(f) + ElementBlock(f) + StylesBlock(f), ElseBlock(f));
    RenderAppend(Head(f) + ElementBlock(f), StylesBlock(f));
    RenderAppend(Head(f), ElementBlock(f));
  }

  /** The expected prompt's text with an element and its styles. */
  lemma {:induction false} ExpectedStyledText(t: string, e: PromptElement, page: Option<PageContext>, s: string, schema: string)
    requires e.computedStyles.Some?
    ensures Render(PromptPieces(t, Some(e), page, s, schema))
      == (Render(HeaderPieces(t)) + Render(ElementPieces(e)) + Render(StylePieces(e.computedStyles.value)) + Newline)
        + (Newline + Newline + Render(PageLines(PageUrl(page), PageTitle(page)))) + schema
  {
    var url, title := PageUrl(page), PageTitle(page);
    var hp, ep, sp, pp := HeaderPieces(t), ElementPieces(e), StylePieces(e.computedStyles.value), PagePieces(url, title, schema);
    RenderAppend(hp + (ep + sp + BlankLines), pp);
    RenderAppend(hp, ep + sp + BlankLines);
    RenderAppend(ep + sp, BlankLines);
    RenderAppend(ep, sp);
    BlankLinesText();
    PageText(TemplateFill([]).(url := Text(url), title := Text(title)), url, title, schema);
    RegroupExpected(Render(PromptPieces(t, Some(e), page, s, schema)), Render(hp), Render(ep), Render(sp), Newline,
      Render(PageLines(url, title)), schema);
  }

  /** Pieces that render alike can stand in for each other. */
  lemma {:induction false} SwapMiddle(a: seq<Piece>, m1: seq<Piece>, m2: seq<Piece>, b: seq<Piece>)
    requires Render(m1) == Render(m2)
    ensures Render(a + m1 + b) == Render(a + m2 + b)
  {
    RenderAppend(a + m1, b);
    RenderAppend(a, m1);
    RenderAppend(a + m2, b);
    RenderAppend(a, m2);
  }

  /** Bare pieces between the request and the page context: the deletions leave the text as it is. */
  lemma {:induction false} FinishBody(f: Fill, t: string, mid: seq<Piece>, page: Option<PageContext>, schema: string)
    requires '{' !in t && '<' !in t && Bare(mid) && (page.Some? ==> Plain(page.value.url) && Plain(page.value.title))
    requires StripComments(schema) == schema && StripPlaceholders(schema) == schema
    requires f.transcript == Text(t) && ShowsPage(f, page)
    ensures Cleanup(Render(Head(f) + mid + PageBlock(f, schema)))
      == Render(HeaderPieces(t) + mid + PagePieces(PageUrl(page), PageTitle(page), schema))
  {
    var url, title := PageUrl(page), PageTitle(page);
    var body := HeaderPieces(t) + mid + PageLines(url, title);
    assert Head(f) + mid + PageBlock(f, schema) == body + [Text(schema)];
    assert HeaderPieces(t) + mid + PagePieces(url, title, schema) == body + [Text(schema)];
    HeaderBare(t);
    PageBare(page);
    assert Bare(body);
    BareText(body);
    RenderAppend(body, [Text(schema)]);
    RenderOne(Text(schema));
    CleanedOver(Render(body), schema);
  }

  /** With an element but no styles: the request, the tag and text lines, then the page context. */
  lemma {:induction false} FinishUnstyled(f: Fill, t: string, e: PromptElement, page: Option<PageContext>, s: string, schema: string)
    requires PlainInputs(t, Some(e), page) && e.computedStyles.None?
    requires StripComments(schema) == schema && StripPlaceholders(schema) == schema
    requires f.transcript == Text(t) && ShowsElement(f, e) && ShowsPage(f, page)
    ensures Cleanup(Render(Head(f) + ElementBlock(f) + PageBlock(f, schema)))
      == Render(PromptPieces(t, Some(e), page, s, schema))
  {
    ElementBlockBare(f, e);
    FinishBody(f, t, ElementBlock(f), page, schema);
    ElementText(f, e);
    var pp := PagePieces(PageUrl(page), PageTitle(page), schema);
    SwapMiddle(HeaderPieces(t), ElementBlock(f), ElementPieces(e), pp);
    assert PromptPieces(t, Some(e), page, s, schema) == HeaderPieces(t) + ElementPieces(e) + pp;
  }

  lemma {:induction false} ElementBlockBare(f: Fill, e: PromptElement)
    requires PlainElement(e) && ShowsElement(f, e)
    ensures Bare(ElementBlock(f))
  {
    PlainShown(e);
  }

  /** With no element: the request, the no-element sentence, then the page context. */
  lemma {:induction false} FinishNoElement(f: Fill, t: string, page: Option<PageContext>, s: seq<SentenceChar>, schema: string)
    requires PlainInputs(t, None, page)
    requires StripComments(schema) == schema && StripPlaceholders(schema) == schema
    requires f.transcript == Text(t) && ShowsPage(f, page)
    ensures Cleanup(Render(Head(f) + NoElementPieces(s) + PageBlock(f, schema)))
      == Render(PromptPieces(t, None, page, s, schema))
  {
    SentenceBare(s);
    FinishBody(f, t, NoElementPieces(s), page, schema);
  }

  // ---------------------------------------------------------------------------
  // `buildVoicePrompt`

  /** What precedes the page lines of a filled template holds no page slot. */
  lemma {:induction false} BodyFree(f: Fill)
    requires Filling(f)
    ensures SlotFree(Head(f) + ElementBlock(f), Url) && SlotFree(Head(f) + ElementBlock(f), Title)
    ensures SlotFree(Head(f) + ElementBlock(f) + StylesBlock(f) + ElseBlock(f), Url)
    ensures SlotFree(Head(f) + ElementBlock(f) + StylesBlock(f) + ElseBlock(f), Title)
  {
    SlotsWellNamed();
    BodyFreeOf(f, Url);
    BodyFreeOf(f, Title);
  }

  lemma {:induction false} BodyFreeOf(f: Fill, x: Slot)
    requires Filling(f) && WellNamed(x) && (x == Url || x == Title)
    ensures SlotFree(Head(f) + ElementBlock(f), x)
    ensures SlotFree(Head(f) + ElementBlock(f) + StylesBlock(f) + ElseBlock(f), x)
  {
    FillingClear(f, x);
    HeadFree(f, x);
    ElementFree(f, x);
    StylesFree(f, x);
    ElseFree(f, x);
    SlotFreeAppend(Head(f), ElementBlock(f), x);
    SlotFreeAppend(Head(f) + ElementBlock(f), StylesBlock(f), x);
    SlotFreeAppend(Head(f) + ElementBlock(f) + StylesBlock(f), ElseBlock(f), x);
  }

  /** The no-element sentence opens with `N` and is long; the schema survives both deletions. */
  predicate Literals(sentence: seq<SentenceChar>, schema: string) {
    && |sentence| > 50 && sentence[0] == 'N'
    && StripComments(schema) == schema && StripPlaceholders(schema) == schema
  }

  /** The request is plain and, with an element selected, its transcript lacks the sentence. */
  predicate Fits(t: string, element: Option<PromptElement>, page: Option<PageContext>, sentence: seq<SentenceChar>) {
    PlainInputs(t, element, page) && (element.Some? ==> !Contains(t, sentence))
  }

  /**
   * `r` is the template's text up to the page context: the pieces `body`, then the page lines of
   * `f` with both page slots in place; filling those in and deleting what is left of the template
   * gives the expected prompt.
   */
  ghost predicate AtPageStage(r: string, body: seq<Piece>, f: Fill, t: string, element: Option<PromptElement>,
    page: Option<PageContext>, sentence: seq<SentenceChar>, schema: string)
  {
    && r == Render(body + PageBlock(f, schema))
    && SlotFree(body, Url) && SlotFree(body, Title) && f.url == Hole(Url) && f.title == Hole(Title)
    && Cleanup(Render(body + PageBlock(f.(url := Text(PageUrl(page)), title := Text(PageTitle(page))), schema)))
      == Render(PromptPieces(t, element, page, sentence, schema))
  }

  /** The fill once the transcript is in place. */
  function TranscriptStage(sentence: seq<SentenceChar>, t: string): Fill {
    TemplateFill(sentence).(transcript := Text(t))
  }

  /** The fill once the element's tag and text are in place and the no-element sentence is gone. */
  function ElementStage(t: string, e: PromptElement): Fill {
    Fill(Text(t), Text(""), Text(ShownTag(e)), Text(ShownText(e)),
      Hole(IfStyles), Hole(FontFamily), Hole(FontWeight), Hole(FontSize),
      Hole(Color), Hole(BackgroundColor), Hole(TextAlign),
      Text(""), Text(ElseMarker), Text(""), Hole(EndIf),
      Hole(Url), Hole(Title))
  }

  lemma {:induction false} ElementStageFilling(t: string, e: PromptElement)
    ensures Plain(t) && PlainElement(e) ==> Filling(ElementStage(t, e))
  {
    if Plain(t) && PlainElement(e) {
      PlainShown(e);
    }
  }

  /** `buildVoicePrompt`, applied to `VOICE_USER_PROMPT_TEMPLATE`. */
  method BuildVoicePrompt(transcript: string, element: Option<PromptElement>, page: Option<PageContext>)
    returns (prompt: string)
    ensures PromptFor(transcript, element, page, prompt)
  {
    TemplateLaidOut();
    TemplateLiterals();
    RequestFits(transcript, element, page);
    prompt := FillTemplate(VoiceUserPromptTemplate, NoElementSentence, transcript, element, page, OutputSchema);
  }

  /** The template is laid out as the filling steps expect. */
  lemma {:induction false} TemplateLaidOut()
    ensures VoiceUserPromptTemplate == Render(Layout(TemplateFill(NoElementSentence), OutputSchema))
  {
  }

  /** A request free of template syntax, whose transcript does not hold the no-element sentence, fits the template. */
  lemma {:induction false} RequestFits(transcript: string, element: Option<PromptElement>, page: Option<PageContext>)
    ensures PlainRequest(transcript, element, page) ==> Fits(transcript, element, page, NoElementSentence)
  {
  }

  /** The template's no-element sentence and schema are of the shape the filling steps rely on. */
  lemma {:induction false} TemplateLiterals()
    ensures Literals(NoElementSentence, OutputSchema)
  {
    SentenceShape();
    SchemaClean();
  }

  /**
   * The steps of `buildVoicePrompt`, for a template laid out as `VOICE_USER_PROMPT_TEMPLATE` is,
   * with its no-element sentence and its schema as parameters.
   */
  method FillTemplate(template: string, sentence: seq<SentenceChar>, transcript: string,
    element: Option<PromptElement>, page: Option<PageContext>, ghost schema: string)
    returns (prompt: string)
    ensures Literals(sentence, schema) && template == Render(Layout(TemplateFill(sentence), schema))
      && Fits(transcript, element, page, sentence)
      ==> prompt == Render(PromptPieces(transcript, element, page, sentence, schema))
  {
    ghost var plain := Literals(sentence, schema) && template == Render(Layout(TemplateFill(sentence), schema))
      && Fits(transcript, element, page, sentence);
    prompt := ReplaceFirst(template, Token(Transcript), transcript);
    if plain {
      FillTranscript(sentence, schema, transcript);
    }
    ghost var body: seq<Piece>, f: Fill;
    if element.Some? {
      prompt, body, f := ShowElement(prompt, element.value, sentence, transcript, page, schema);
    } else {
      prompt, body, f := ShowNoElement(prompt, sentence, transcript, page, schema);
    }
    var url, title := PageUrl(page), PageTitle(page);
    prompt := ReplaceFirst(prompt, Token(Url), url);
    prompt := ReplaceFirst(prompt, Token(Title), title);
    if plain {
      PlainPage(page);
      FillPageUrl(body, f, schema, url);
      FillPageTitle(body, f.(url := Text(url)), schema, title);
    }
    prompt := StripComments(prompt);
    prompt := StripPlaceholders(prompt);
  }

  /** The selected-element branch: the element's lines, with or without its styles. */
  method ShowElement(prompt: string, e: PromptElement, sentence: seq<SentenceChar>,
    ghost t: string, ghost page: Option<PageContext>, ghost schema: string)
    returns (r: string, ghost body: seq<Piece>, ghost f: Fill)
    ensures Literals(sentence, schema) && Fits(t, Some(e), page, sentence)
      && prompt == Render(Layout(TranscriptStage(sentence, t), schema))
      ==> AtPageStage(r, body, f, t, Some(e), page, sentence, schema)
  {
    ghost var plain := Literals(sentence, schema) && Fits(t, Some(e), page, sentence)
      && prompt == Render(Layout(TranscriptStage(sentence, t), schema));
    r := ReplaceFirst(prompt, Token(IfElement), "");
    r := ReplaceFirst(r, Token(Else), ElseMarker);
    r := ReplaceFirst(r, sentence, "");
    r := ReplaceFirst(r, Token(EndIf), "");
    if plain {
      ElementOpened(prompt, sentence, t, schema);
    }
    var tag, text := ShownTag(e), ShownText(e);
    r := ReplaceFirst(r, Token(TagName), tag);
    r := ReplaceFirst(r, Token(TextContent), text);
    if plain {
      ElementShown(sentence, t, e, schema);
    }
    if e.computedStyles.Some? {
      r, body, f := ShowStyles(r, e.computedStyles.value, sentence, t, e, page, schema);
    } else {
      r, body, f := DropStyles(r, sentence, t, e, page, schema);
    }
  }

  /** The element's `{{#if}}` and `{{else}}` markers, the sentence and the inner `{{/if}}` are replaced. */
  lemma {:induction false} ElementOpened(prompt: string, s: seq<SentenceChar>, t: string, schema: string)
    requires |s| > 50 && s[0] == 'N' && Plain(t) && !Contains(t, s)
    requires prompt == Render(Layout(TranscriptStage(s, t), schema))
    ensures var r1 := ReplaceFirst(prompt, Token(IfElement), "");
      var r2 := ReplaceFirst(r1, Token(Else), ElseMarker);
      var r3 := ReplaceFirst(r2, s, "");
      ReplaceFirst(r3, Token(EndIf), "") == Render(Layout(OpenedStage(t), schema))
  {
    var f1 := TranscriptStage(s, t);
    FillTranscript(s, schema, t);
    FillIfElement(f1, schema, "");
    FillElseBranch(f1.(ifElement := Text("")), schema, ElseMarker);
    assert f1.(ifElement := Text("")).(elseBranch := Text(ElseMarker)) == SentenceStage(s, t);
    DropSentence(s, t, schema);
    var f4 := SentenceStage(s, t).(sentence := Text(""));
    FillEndIfStyles(f4, schema, "");
    assert f4.(endIfStyles := Text("")) == OpenedStage(t);
  }

  /** The fill once the element's markers are replaced and the sentence is gone. */
  function OpenedStage(t: string): Fill {
    Fill(Text(t), Text(""), Hole(TagName), Hole(TextContent),
      Hole(IfStyles), Hole(FontFamily), Hole(FontWeight), Hole(FontSize),
      Hole(Color), Hole(BackgroundColor), Hole(TextAlign),
      Text(""), Text(ElseMarker), Text(""), Hole(EndIf),
      Hole(Url), Hole(Title))
  }

  /** The tag and the text then fill their slots. */
  lemma {:induction false} ElementShown(s: seq<SentenceChar>, t: string, e: PromptElement, schema: string)
    requires Plain(t) && PlainElement(e)
    ensures var r := ReplaceFirst(Render(Layout(OpenedStage(t), schema)), Token(TagName), ShownTag(e));
      ReplaceFirst(r, Token(TextContent), ShownText(e)) == Render(Layout(ElementStage(t, e), schema))
  {
    PlainShown(e);
    var f := OpenedStage(t);
    assert Filling(f);
    FillTagName(f, schema, ShownTag(e));
    FillTextContent(f.(tagName := Text(ShownTag(e))), schema, ShownText(e));
    assert f.(tagName := Text(ShownTag(e))).(textContent := Text(ShownText(e))) == ElementStage(t, e);
  }

  /** The element's computed styles are shown: each style in its slot, then the inner `{{/if}}` cut. */
  method ShowStyles(prompt: string, st: ComputedStyles, ghost sentence: seq<SentenceChar>, ghost t: string,
    ghost e: PromptElement, ghost page: Option<PageContext>, ghost schema: string)
    returns (r: string, ghost body: seq<Piece>, ghost f: Fill)
    ensures Literals(sentence, schema) && Fits(t, Some(e), page, sentence) && e.computedStyles == Some(st)
      && prompt == Render(Layout(ElementStage(t, e), schema))
      ==> AtPageStage(r, body, f, t, Some(e), page, sentence, schema)
  {
    ghost var plain := Literals(sentence, schema) && Fits(t, Some(e), page, sentence) && e.computedStyles == Some(st)
      && prompt == Render(Layout(ElementStage(t, e), schema));
    r := ReplaceFirst(prompt, Token(IfStyles), "");
    r := ReplaceFirst(r, Token(FontFamily), StyleText(st.fontFamily));
    r := ReplaceFirst(r, Token(FontWeight), StyleText(st.fontWeight));
    r := ReplaceFirst(r, Token(FontSize), StyleText(st.fontSize));
    r := ReplaceFirst(r, Token(Color), StyleText(st.color));
    r := ReplaceFirst(r, Token(BackgroundColor), StyleText(st.backgroundColor));
    r := ReplaceFirst(r, Token(TextAlign), StyleText(st.textAlign));
    if plain {
      StylesShown(prompt, t, e, st, schema);
    }
    ghost var r0 := r;
    var styleIfEndIndex := IndexOf(r, Token(EndIf));
    if styleIfEndIndex > -1 {
      r := Substring(r, 0, styleIfEndIndex) + SubstringFrom(r, styleIfEndIndex + 7);
    }
    f := StyledStage(t, e, st).(endIf := Text(""));
    body := Head(f) + ElementBlock(f) + StylesBlock(f) + ElseBlock(f);
    if plain {
      StylesClosedAt(t, e, st, page, sentence, schema, r0, styleIfEndIndex, r);
    }
  }

  /** `StylesClosed`, stated of the text computed from `r0` step by step. */
  lemma {:induction false} StylesClosedAt(t: string, e: PromptElement, st: ComputedStyles, page: Option<PageContext>,
    s: seq<SentenceChar>, schema: string, r0: string, styleIfEndIndex: int, r: string)
    requires Literals(s, schema) && Fits(t, Some(e), page, s) && e.computedStyles == Some(st)
    requires r0 == Render(Layout(StyledStage(t, e, st), schema))
    requires styleIfEndIndex == IndexOf(r0, Token(EndIf))
    requires r == if styleIfEndIndex > -1
      then Substring(r0, 0, styleIfEndIndex) + SubstringFrom(r0, styleIfEndIndex + 7)
      else r0
    ensures var f := StyledStage(t, e, st).(endIf := Text(""));
      AtPageStage(r, Head(f) + ElementBlock(f) + StylesBlock(f) + ElseBlock(f), f, t, Some(e), page, s, schema)
  {
    StylesClosed(t, e, st, page, s, schema, r0);
    assert styleIfEndIndex > -1;
  }

  /** The fill once the styles are in place. */
  function StyledStage(t: string, e: PromptElement, st: ComputedStyles): Fill
  {
    ElementStage(t, e).(ifStyles := Text(""), fontFamily := Text(StyleText(st.fontFamily)),
      fontWeight := Text(StyleText(st.fontWeight)), fontSize := Text(StyleText(st.fontSize)),
      color := Text(StyleText(st.color)), backgroundColor := Text(StyleText(st.backgroundColor)),
      textAlign := Text(StyleText(st.textAlign)))
  }

  /** The styles' `{{#if}}` goes and each computed style fills its slot. */
  lemma {:induction false} StylesShown(prompt: string, t: string, e: PromptElement, st: ComputedStyles, schema: string)
    requires Plain(t) && PlainElement(e) && e.computedStyles == Some(st)
    requires prompt == Render(Layout(ElementStage(t, e), schema))
    ensures var r1 := ReplaceFirst(prompt, Token(IfStyles), "");
      var r2 := ReplaceFirst(r1, Token(FontFamily), StyleText(st.fontFamily));
      var r3 := ReplaceFirst(r2, Token(FontWeight), StyleText(st.fontWeight));
      var r4 := ReplaceFirst(r3, Token(FontSize), StyleText(st.fontSize));
      var r5 := ReplaceFirst(r4, Token(Color), StyleText(st.color));
      var r6 := ReplaceFirst(r5, Token(BackgroundColor), StyleText(st.backgroundColor));
      ReplaceFirst(r6, Token(TextAlign), StyleText(st.textAlign)) == Render(Layout(StyledStage(t, e, st), schema))
  {
    var f0 := ElementStage(t, e);
    ElementStageFilling(t, e);
    FillIfStyles(f0, schema, "");
    var f1 := f0.(ifStyles := Text(""));
    FillFontFamily(f1, schema, StyleText(st.fontFamily));
    var f2 := f1.(fontFamily := Text(StyleText(st.fontFamily)));
    FillFontWeight(f2, schema, StyleText(st.fontWeight));
    var f3 := f2.(fontWeight := Text(StyleText(st.fontWeight)));
    FillFontSize(f3, schema, StyleText(st.fontSize));
    var f4 := f3.(fontSize := Text(StyleText(st.fontSize)));
    FillColor(f4, schema, StyleText(st.color));
    var f5 := f4.(color := Text(StyleText(st.color)));
    FillBackgroundColor(f5, schema, StyleText(st.backgroundColor));
    var f6 := f5.(backgroundColor := Text(StyleText(st.backgroundColor)));
    FillTextAlign(f6, schema, StyleText(st.textAlign));
    assert f6.(textAlign := Text(StyleText(st.textAlign))) == StyledStage(t, e, st);
  }

  /** Cutting the first `{{/if}}` leaves the page stage, from which the expected prompt follows. */
  lemma {:induction false} StylesClosed(t: string, e: PromptElement, st: ComputedStyles, page: Option<PageContext>,
    s: seq<SentenceChar>, schema: string, r: string)
    requires Literals(s, schema) && PlainInputs(t, Some(e), page) && e.computedStyles == Some(st)
    requires r == Render(Layout(StyledStage(t, e, st), schema))
    ensures var i := IndexOf(r, Token(EndIf));
      var f := StyledStage(t, e, st).(endIf := Text(""));
      && i > -1
      && AtPageStage(Substring(r, 0, i) + SubstringFrom(r, i + 7),
        Head(f) + ElementBlock(f) + StylesBlock(f) + ElseBlock(f), f, t, Some(e), page, s, schema)
  {
    var f := StyledStage(t, e, st).(endIf := Text(""));
    ElementStageFilling(t, e);
    CutEndIf(StyledStage(t, e, st), schema);
    BodyFree(f);
    FinishStyled(f.(url := Text(PageUrl(page)), title := Text(PageTitle(page))), t, e, page, s, schema);
  }

  /** Without computed styles, the styles' lines are cut, through the next `{{/if}}`. */
  method DropStyles(prompt: string, ghost sentence: seq<SentenceChar>, ghost t: string, ghost e: PromptElement,
    ghost page: Option<PageContext>, ghost schema: string)
    returns (r: string, ghost body: seq<Piece>, ghost f: Fill)
    ensures Literals(sentence, schema) && Fits(t, Some(e), page, sentence) && e.computedStyles.None?
      && prompt == Render(Layout(ElementStage(t, e), schema))
      ==> AtPageStage(r, body, f, t, Some(e), page, sentence, schema)
  {
    ghost var plain := Literals(sentence, schema) && Fits(t, Some(e), page, sentence) && e.computedStyles.None?
      && prompt == Render(Layout(ElementStage(t, e), schema));
    var styleBlockStart := IndexOf(prompt, Token(IfStyles));
    var styleBlockEnd := IndexOfFrom(prompt, Token(EndIf), styleBlockStart) + 7;
    r := prompt;
    if styleBlockStart > -1 && styleBlockEnd > styleBlockStart {
      r := Substring(prompt, 0, styleBlockStart) + SubstringFrom(prompt, styleBlockEnd);
    }
    f := ElementStage(t, e);
    body := Head(f) + ElementBlock(f);
    if plain {
      StylesDropped(sentence, t, e, page, schema, prompt, styleBlockStart, styleBlockEnd, r);
    }
  }

  /** Cutting the styles' lines, stated of the text the unstyled branch computes from `prompt` step by step. */
  lemma {:induction false} StylesDropped(s: seq<SentenceChar>, t: string, e: PromptElement, page: Option<PageContext>,
    schema: string, prompt: string, styleBlockStart: int, styleBlockEnd: int, r: string)
    requires Literals(s, schema) && Fits(t, Some(e), page, s) && e.computedStyles.None?
    requires prompt == Render(Layout(ElementStage(t, e), schema))
    requires styleBlockStart == IndexOf(prompt, Token(IfStyles))
    requires styleBlockEnd == IndexOfFrom(prompt, Token(EndIf), styleBlockStart) + 7
    requires r == if styleBlockStart > -1 && styleBlockEnd > styleBlockStart
      then Substring(prompt, 0, styleBlockStart) + SubstringFrom(prompt, styleBlockEnd)
      else prompt
    ensures AtPageStage(r, Head(ElementStage(t, e)) + ElementBlock(ElementStage(t, e)), ElementStage(t, e),
      t, Some(e), page, s, schema)
  {
    ElementStageFilling(t, e);
    StylesCutAt(ElementStage(t, e), schema, prompt, styleBlockStart, styleBlockEnd, r);
    UnstyledFinished(t, e, page, s, schema);
  }

  /** `StylesCut`, stated of the text computed from `prompt` step by step. */
  lemma {:induction false} StylesCutAt(f: Fill, schema: string, prompt: string, styleBlockStart: int, styleBlockEnd: int,
    r: string)
    requires Filling(f) && f.ifStyles == Hole(IfStyles) && f.endIfStyles.Text? && f.endIf == Hole(EndIf)
    requires prompt == Render(Layout(f, schema))
    requires styleBlockStart == IndexOf(prompt, Token(IfStyles))
    requires styleBlockEnd == IndexOfFrom(prompt, Token(EndIf), styleBlockStart) + 7
    requires r == if styleBlockStart > -1 && styleBlockEnd > styleBlockStart
      then Substring(prompt, 0, styleBlockStart) + SubstringFrom(prompt, styleBlockEnd)
      else prompt
    ensures r == Render(Head(f) + ElementBlock(f) + PageBlock(f, schema))
    ensures SlotFree(Head(f) + ElementBlock(f), Url) && SlotFree(Head(f) + ElementBlock(f), Title)
  {
    StylesCut(f, schema, prompt);
    assert styleBlockStart > -1 && styleBlockEnd > styleBlockStart;
  }

  /** The styles' lines, through the next `{{/if}}`, are cut; what is left before the page is free of its slots. */
  lemma {:induction false} StylesCut(f: Fill, schema: string, r: string)
    requires Filling(f) && f.ifStyles == Hole(IfStyles) && f.endIfStyles.Text? && f.endIf == Hole(EndIf)
    requires r == Render(Layout(f, schema))
    ensures var a := IndexOf(r, Token(IfStyles));
      var b := IndexOfFrom(r, Token(EndIf), a) + 7;
      && a > -1 && b > a
      && Substring(r, 0, a) + SubstringFrom(r, b) == Render(Head(f) + ElementBlock(f) + PageBlock(f, schema))
      && SlotFree(Head(f) + ElementBlock(f), Url) && SlotFree(Head(f) + ElementBlock(f), Title)
  {
    CutStyles(f, schema, r);
    BodyFree(f);
  }

  /** Without styles, the element's lines and the page's, cleaned up, are the expected prompt. */
  lemma {:induction false} UnstyledFinished(t: string, e: PromptElement, page: Option<PageContext>, s: seq<SentenceChar>, schema: string)
    ensures Literals(s, schema) && PlainInputs(t, Some(e), page) && e.computedStyles.None? ==>
      var f := ElementStage(t, e).(url := Text(PageUrl(page)), title := Text(PageTitle(page)));
      Cleanup(Render(Head(f) + ElementBlock(f) + PageBlock(f, schema))) == Render(PromptPieces(t, Some(e), page, s, schema))
  {
    if Literals(s, schema) && PlainInputs(t, Some(e), page) && e.computedStyles.None? {
      FinishUnstyled(ElementStage(t, e).(url := Text(PageUrl(page)), title := Text(PageTitle(page))), t, e, page, s, schema);
    }
  }

  /** The no-element branch: only the `{{else}}` branch's lines are kept between request and page. */
  method ShowNoElement(prompt: string, ghost sentence: seq<SentenceChar>, ghost t: string,
    ghost page: Option<PageContext>, ghost schema: string)
    returns (r: string, ghost body: seq<Piece>, ghost f: Fill)
    ensures Literals(sentence, schema) && Fits(t, None, page, sentence)
      && prompt == Render(Layout(TranscriptStage(sentence, t), schema))
      ==> AtPageStage(r, body, f, t, None, page, sentence, schema)
  {
    ghost var plain := Literals(sentence, schema) && Fits(t, None, page, sentence)
      && prompt == Render(Layout(TranscriptStage(sentence, t), schema));
    r := ReplaceFirst(prompt, Token(IfElement), NoElementMarker);
    if plain {
      NoElementOpened(prompt, sentence, t, schema);
    }
    ghost var r0 := r;
    var elseStart := IndexOf(r, Token(Else));
    var endIfIndex := IndexOfFrom(r, Token(EndIf), elseStart);
    if elseStart > -1 && endIfIndex > -1 {
      var beforeIf := Substring(r, 0, IndexOf(r, NoElementMarker));
      var elseContent := Substring(r, elseStart + 8, endIfIndex);
      var afterEndIf := SubstringFrom(r, endIfIndex + 7);
      r := beforeIf + elseContent + afterEndIf;
    }
    f := NoElementStage(sentence, t);
    body := Head(f) + NoElementPieces(sentence);
    if plain {
      ElseKeptAt(sentence, t, page, schema, r0, elseStart, endIfIndex, r);
    }
  }

  /** `ElseKept`, stated of the text the no-element branch computes from `r0` step by step. */
  lemma {:induction false} ElseKeptAt(s: seq<SentenceChar>, t: string, page: Option<PageContext>, schema: string,
    r0: string, elseStart: int, endIfIndex: int, r: string)
    requires Literals(s, schema) && Fits(t, None, page, s)
    requires r0 == Render(Layout(NoElementStage(s, t), schema))
    requires elseStart == IndexOf(r0, Token(Else)) && endIfIndex == IndexOfFrom(r0, Token(EndIf), elseStart)
    requires r == if elseStart > -1 && endIfIndex > -1
      then Substring(r0, 0, IndexOf(r0, NoElementMarker)) + Substring(r0, elseStart + 8, endIfIndex)
        + SubstringFrom(r0, endIfIndex + 7)
      else r0
    ensures AtPageStage(r, Head(NoElementStage(s, t)) + NoElementPieces(s), NoElementStage(s, t), t, None, page, s, schema)
  {
    ElseKept(s, t, page, schema, r0, elseStart, endIfIndex);
    assert elseStart > -1 && endIfIndex > -1;
  }

  /** `{{#if selectedElement}}` becomes the marker the no-element branch later cuts back to. */
  lemma {:induction false} NoElementOpened(prompt: string, s: seq<SentenceChar>, t: string, schema: string)
    requires '$' !in t && '{' !in t
    requires prompt == Render(Layout(TranscriptStage(s, t), schema))
    ensures ReplaceFirst(prompt, Token(IfElement), NoElementMarker) == Render(Layout(NoElementStage(s, t), schema))
  {
    TranscriptStageFilling(s, t);
    FillIfElement(TranscriptStage(s, t), schema, NoElementMarker);
  }

  lemma {:induction false} TranscriptStageFilling(s: seq<SentenceChar>, t: string)
    requires '$' !in t && '{' !in t
    ensures Filling(TranscriptStage(s, t)) && TranscriptStage(s, t).ifElement == Hole(IfElement)
  {
    FillTranscript(s, "", t);
  }

  /** Keeping the `{{else}}` branch leaves the page stage, from which the expected prompt follows. */
  lemma {:induction false} ElseKept(s: seq<SentenceChar>, t: string, page: Option<PageContext>, schema: string, r: string,
                                    e: int, i: int)
    requires Literals(s, schema) && PlainInputs(t, None, page)
    requires r == Render(Layout(NoElementStage(s, t), schema))
    requires e == IndexOf(r, Token(Else)) && i == IndexOfFrom(r, Token(EndIf), e)
    ensures e > -1 && i > -1
    ensures AtPageStage(Substring(r, 0, IndexOf(r, NoElementMarker)) + Substring(r, e + 8, i) + SubstringFrom(r, i + 7),
      Head(NoElementStage(s, t)) + NoElementPieces(s), NoElementStage(s, t), t, None, page, s, schema)
  {
    KeepElseBranch(s, t, schema, r, e, i);
    NoElementBodyFree(s, t);
    NoElementStageSlots(s, t);
    PageStageOfKept(NoElementStage(s, t), t, page, s, schema,
      Substring(r, 0, IndexOf(r, NoElementMarker)) + Substring(r, e + 8, i) + SubstringFrom(r, i + 7));
  }

  lemma {:induction false} NoElementStageSlots(s: seq<SentenceChar>, t: string)
    ensures var f := NoElementStage(s, t); f.url == Hole(Url) && f.title == Hole(Title) && f.transcript == Text(t)
  {
  }

  /** The request, the no-element sentence and the page lines of `f`, joined, are at the page stage. */
  lemma {:induction false} PageStageOfKept(f: Fill, t: string, page: Option<PageContext>, s: seq<SentenceChar>,
    schema: string, kept: string)
    requires Literals(s, schema) && PlainInputs(t, None, page)
    requires f.url == Hole(Url) && f.title == Hole(Title) && f.transcript == Text(t)
    requires SlotFree(Head(f) + NoElementPieces(s), Url) && SlotFree(Head(f) + NoElementPieces(s), Title)
    requires kept == Render(Head(f)) + Render(NoElementPieces(s)) + Render(PageBlock(f, schema))
    ensures AtPageStage(kept, Head(f) + NoElementPieces(s), f, t, None, page, s, schema)
  {
    RenderAppend(Head(f) + NoElementPieces(s), PageBlock(f, schema));
    RenderAppend(Head(f), NoElementPieces(s));
    FinishNoElement(f.(url := Text(PageUrl(page)), title := Text(PageTitle(page))), t, page, s, schema);
  }

  lemma {:induction false} NoElementBodyFree(s: seq<SentenceChar>, t: string)
    requires '{' !in t && '<' !in t
    ensures SlotFree(Head(NoElementStage(s, t)) + NoElementPieces(s), Url)
    ensures SlotFree(Head(NoElementStage(s, t)) + NoElementPieces(s), Title)
  {
    var body := Head(NoElementStage(s, t)) + NoElementPieces(s);
    assert Bare(body);
    BareText(body);
    SlotsWellNamed();
  }
}
