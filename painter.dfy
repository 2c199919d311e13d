/**
 * The format painter of the preview toolbar (components/WordPreview.tsx): a pending
 * style captured from the selection anchor's computed style, a lock flag, and the
 * mouse-up handler that applies the pending style to the selected text.
 *
 * The browser's side is reduced to inputs: the anchor element's computed style (or its
 * absence), the selection (absent, collapsed, or a range with its text), and whether
 * `Range.surroundContents` succeeds.
 */
module FormatPainter {
  import opened Wrappers
  import opened Text

  /** `getComputedStyle(el)`, seen through its camelCase CSSOM property names. */
  type ComputedStyle = string -> string

  /** The nine captured properties. */
  datatype PainterStyle = PainterStyle(
    fontWeight: string, fontStyle: string, textDecorationLine: string,
    color: string, backgroundColor: string, fontFamily: string,
    fontSize: string, lineHeight: string, letterSpacing: string)

  /** The captured record's keys, in the order of its object literal (and of `Object.entries`). */
  const PainterKeys: seq<string> :=
    ["fontWeight", "fontStyle", "textDecorationLine", "color", "backgroundColor",
     "fontFamily", "fontSize", "lineHeight", "letterSpacing"]

  /** `Object.entries(painterStyle)`. */
  function Entries(p: PainterStyle): (es: seq<(string, string)>)
    ensures |es| == |PainterKeys|
    ensures forall i :: 0 <= i < |es| ==> es[i].0 == PainterKeys[i]
  {
    [("fontWeight", p.fontWeight), ("fontStyle", p.fontStyle),
     ("textDecorationLine", p.textDecorationLine), ("color", p.color),
     ("backgroundColor", p.backgroundColor), ("fontFamily", p.fontFamily),
     ("fontSize", p.fontSize), ("lineHeight", p.lineHeight),
     ("letterSpacing", p.letterSpacing)]
  }

  lemma PainterKeysDistinct()
    ensures |PainterKeys| == 9
    ensures forall i, j :: 0 <= i < j < |PainterKeys| ==> PainterKeys[i] != PainterKeys[j]
  {
  }

  /** `capturePainter`: read the nine properties from the anchor element's computed style. */
  function Capture(computed: ComputedStyle): (p: PainterStyle)
    ensures forall i :: 0 <= i < |PainterKeys| ==> Entries(p)[i] == (PainterKeys[i], computed(PainterKeys[i]))
  {
    PainterStyle(
      computed("fontWeight"), computed("fontStyle"), computed("textDecorationLine"),
      computed("color"), computed("backgroundColor"), computed("fontFamily"),
      computed("fontSize"), computed("lineHeight"), computed("letterSpacing"))
  }

  /** No two entries share a key. */
  predicate DistinctKeys(es: seq<(string, string)>)
  {
    forall a, b :: 0 <= a < b < |es| ==> es[a].0 != es[b].0
  }

  /** The style the first `n` entries leave on an element that had none. */
  function StyleOf(es: seq<(string, string)>, n: nat): (m: map<string, string>)
    requires n <= |es| && DistinctKeys(es)
    ensures m.Keys == set j | 0 <= j < n :: es[j].0
    ensures forall j :: 0 <= j < n ==> m[es[j].0] == es[j].1
  {
    map j | 0 <= j < n :: es[j].0 := es[j].1
  }

  lemma EntriesDistinct(p: PainterStyle)
    ensures DistinctKeys(Entries(p))
  {
    PainterKeysDistinct();
  }

  /** The inline style of the wrapping span: each captured property under its own key, with its captured value. */
  function SpanStyle(p: PainterStyle): (m: map<string, string>)
    ensures m.Keys == set i | 0 <= i < |PainterKeys| :: PainterKeys[i]
    ensures forall i :: 0 <= i < |PainterKeys| ==> m[PainterKeys[i]] == Entries(p)[i].1
  {
    EntriesDistinct(p);
    StyleOf(Entries(p), |PainterKeys|)
  }

  /** `Object.entries(painterStyle).forEach(([k, v]) => { span.style[k] = v; })` on a fresh span. */
  method StyleSpan(p: PainterStyle) returns (style: map<string, string>)
    ensures style == SpanStyle(p)
  {
    var es := Entries(p);
    EntriesDistinct(p);
    style := map[];
    for i := 0 to |es|
      invariant style == StyleOf(es, i)
    {
      style := style[es[i].0 := es[i].1];
    }
  }

  /** `k:v` pairs joined by `;`, the text of an inline `style` attribute. */
  function StyleText(decls: seq<(string, string)>): string
  {
    Join(seq(|decls|, i requires 0 <= i < |decls| => decls[i].0 + ":" + decls[i].1), ';')
  }

  /** The fragment's opening up to and including the quote that opens the `style` attribute. */
  const SpanOpen: string := "<span style=\""

  function HtmlSpan(styleText: string, text: string): string
  {
    SpanOpen + styleText + "\">" + text + "</span>"
  }

  /** The fallback fragment as the code builds it, keyed by the camelCase CSSOM names. */
  function FallbackFragment(p: PainterStyle, text: string): string
  {
    HtmlSpan(StyleText(Entries(p)), text)
  }

  // ---- CSS property names ----

  predicate IsUpper(c: char) { 'A' <= c <= 'Z' }

  function ToLower(c: char): (l: char)
    ensures l == '-' <==> c == '-'
    ensures !IsUpper(c) ==> l == c
  {
    if IsUpper(c) then (c as int + 32) as char else c
  }

  /** ASCII lower-casing, which is how the CSS parser compares property names. */
  function AsciiLower(s: string): (t: string)
    ensures |t| == |s|
    ensures forall i :: 0 <= i < |s| ==> t[i] == ToLower(s[i])
  {
    if |s| == 0 then "" else [ToLower(s[0])] + AsciiLower(s[1..])
  }

  /** The CSS names of the captured properties, in the order of `PainterKeys`. */
  const CssPropertyNames: seq<string> :=
    ["font-weight", "font-style", "text-decoration-line", "color", "background-color",
     "font-family", "font-size", "line-height", "letter-spacing"]

  /** A declaration name a `style` attribute accepts for one of the nine properties. */
  predicate Recognised(name: string)
  {
    AsciiLower(name) in CssPropertyNames
  }

  /** The captured properties under their CSS names. */
  function CssEntries(p: PainterStyle): (es: seq<(string, string)>)
    ensures |es| == |Entries(p)|
    ensures forall i :: 0 <= i < |es| ==> es[i] == (CssPropertyNames[i], Entries(p)[i].1)
  {
    seq(|Entries(p)|, i requires 0 <= i < |Entries(p)| => (CssPropertyNames[i], Entries(p)[i].1))
  }

  /**
   * The fallback fragment with each declaration under its CSS name and the attribute
   * text escaped, so that a quoted font family such as `"Times New Roman", serif`
   * stays inside the attribute.
   */
  function InlineStyleFragment(p: PainterStyle, text: string): string
  {
    HtmlSpan(EscapeAttribute(StyleText(CssEntries(p))), text)
  }

  // ---- the attribute value as an HTML parser reads it ----

  /** `&` as `&amp;` and `"` as `&quot;`, the escaping a double-quoted attribute value needs. */
  function EscapeAttribute(s: string): (e: string)
    ensures '"' !in e
  {
    if |s| == 0 then ""
    else (if s[0] == '&' then "&amp;" else if s[0] == '"' then "&quot;" else [s[0]]) + EscapeAttribute(s[1..])
  }

  /** The character references of an attribute value replaced by their characters (the two that `EscapeAttribute` writes). */
  function UnescapeAttribute(s: string): string
  {
    if |s| == 0 then ""
    else if |s| >= 5 && s[..5] == "&amp;" then "&" + UnescapeAttribute(s[5..])
    else if |s| >= 6 && s[..6] == "&quot;" then "\"" + UnescapeAttribute(s[6..])
    else [s[0]] + UnescapeAttribute(s[1..])
  }

  lemma {:induction false} UnescapeEscape(s: string)
    ensures UnescapeAttribute(EscapeAttribute(s)) == s
  {
    if |s| > 0 {
      var rest := EscapeAttribute(s[1..]);
      var e := EscapeAttribute(s);
      UnescapeEscape(s[1..]);
      if s[0] == '&' {
        assert e[..5] == "&amp;" && e[5..] == rest;
      } else if s[0] == '"' {
        assert e[..5] != "&amp;" by { assert e[1] == 'q'; }
        assert e[..6] == "&quot;" && e[6..] == rest;
      } else {
        assert e[0] == s[0] && e[1..] == rest;
        assert |e| >= 5 ==> e[..5] != "&amp;" by { assert e[0] != '&'; }
        assert |e| >= 6 ==> e[..6] != "&quot;" by { assert e[0] != '&'; }
      }
      assert [s[0]] + s[1..] == s;
    }
  }

  /** The text up to the first `"`, where a double-quoted attribute value ends. */
  function UpToQuote(s: string): (v: string)
    ensures '"' !in v
  {
    if |s| == 0 || s[0] == '"' then "" else [s[0]] + UpToQuote(s[1..])
  }

  lemma {:induction false} UpToQuoteOf(a: string, b: string)
    requires '"' !in a
    requires |b| > 0 && b[0] == '"'
    ensures UpToQuote(a + b) == a
  {
    if |a| > 0 {
      assert (a + b)[0] == a[0] && (a + b)[1..] == a[1..] + b;
      UpToQuoteOf(a[1..], b);
      assert [a[0]] + a[1..] == a;
    } else {
      assert a + b == b;
    }
  }

  /** The raw value of a span's `style` attribute: what follows `<span style="` up to the next `"`. */
  function StyleAttribute(html: string): (v: Option<string>)
    ensures v.Some? <==> |html| >= |SpanOpen| && html[..|SpanOpen|] == SpanOpen
  {
    if |html| >= |SpanOpen| && html[..|SpanOpen|] == SpanOpen then Some(UpToQuote(html[|SpanOpen|..])) else None
  }

  /** A style text free of `"` is the whole attribute value of its span, whatever the span's text. */
  lemma SpanAttribute(styleText: string, text: string)
    requires '"' !in styleText
    ensures StyleAttribute(HtmlSpan(styleText, text)) == Some(styleText)
  {
    var tail := "\">" + text + "</span>";
    var h := HtmlSpan(styleText, text);
    assert h == SpanOpen + (styleText + tail);
    assert h[..|SpanOpen|] == SpanOpen;
    assert h[|SpanOpen|..] == styleText + tail;
    UpToQuoteOf(styleText, tail);
  }

  // ---- reading a style attribute back ----

  /** A `name:value` declaration split at its first colon. */
  function ParseDeclaration(d: string): (string, string)
  {
    if |d| == 0 then ("", "")
    else if d[0] == ':' then ("", d[1..])
    else var (k, v) := ParseDeclaration(d[1..]); ([d[0]] + k, v)
  }

  function ParseStyleText(s: string): seq<(string, string)>
  {
    var parts := Split(s, ';');
    seq(|parts|, i requires 0 <= i < |parts| => ParseDeclaration(parts[i]))
  }

  lemma {:induction false} ParseDeclarationOf(k: string, v: string)
    requires ':' !in k
    ensures ParseDeclaration(k + ":" + v) == (k, v)
  {
    if |k| == 0 {
      assert k + ":" + v == [':'] + v;
    } else {
      assert (k + ":" + v)[1..] == k[1..] + ":" + v;
      ParseDeclarationOf(k[1..], v);
      assert [k[0]] + k[1..] == k;
    }
  }

  /** A list of declarations survives the trip through the attribute text when their separators do not occur inside them. */
  lemma StyleTextRoundTrip(decls: seq<(string, string)>)
    requires |decls| > 0
    requires forall i :: 0 <= i < |decls| ==> ':' !in decls[i].0 && ';' !in decls[i].0 && ';' !in decls[i].1
    ensures ParseStyleText(StyleText(decls)) == decls
  {
    var parts := seq(|decls|, i requires 0 <= i < |decls| => decls[i].0 + ":" + decls[i].1);
    forall i | 0 <= i < |parts| ensures ';' !in parts[i] {
      assert parts[i] == decls[i].0 + ":" + decls[i].1;
    }
    SplitJoin(parts, ';');
    forall i | 0 <= i < |decls| ensures ParseDeclaration(parts[i]) == decls[i] {
      ParseDeclarationOf(decls[i].0, decls[i].1);
    }
  }

  /** Values that keep the attribute text unambiguous. */
  predicate PlainValues(p: PainterStyle)
  {
    forall i :: 0 <= i < |Entries(p)| ==> ';' !in Entries(p)[i].1
  }

  predicate IsLetter(c: char) { 'a' <= c <= 'z' || IsUpper(c) }

  /** The captured keys are plain camelCase words. */
  lemma KeysAreLetters()
    ensures forall i :: 0 <= i < |PainterKeys| ==> forall j :: 0 <= j < |PainterKeys[i]| ==> IsLetter(PainterKeys[i][j])
  {
  }

  /** The CSS names are lower-case words joined by hyphens; all of them but `color` have a hyphen. */
  lemma CssNamesAreLowerCase()
    ensures forall i :: 0 <= i < |CssPropertyNames| ==>
      forall j :: 0 <= j < |CssPropertyNames[i]| ==> 'a' <= CssPropertyNames[i][j] <= 'z' || CssPropertyNames[i][j] == '-'
  {
  }

  lemma CssNamesHyphenated()
    ensures forall i :: 0 <= i < |CssPropertyNames| && i != 3 ==> '-' in CssPropertyNames[i]
  {
  }

  lemma KeysArePlain(i: nat)
    requires i < |PainterKeys|
    ensures ':' !in PainterKeys[i] && ';' !in PainterKeys[i] && '-' !in PainterKeys[i]
    ensures ':' !in CssPropertyNames[i] && ';' !in CssPropertyNames[i]
  {
    KeysAreLetters();
    CssNamesAreLowerCase();
  }

  lemma {:induction false} LowerOfLower(s: string)
    requires forall j :: 0 <= j < |s| ==> !IsUpper(s[j])
    ensures AsciiLower(s) == s
  {
  }

  /** A key the browser would recognise must be `color`: every other CSS name has a hyphen, which no key has. */
  lemma RecognisedKeyIsColor(i: nat)
    requires i < |PainterKeys|
    ensures Recognised(PainterKeys[i]) <==> i == 3
  {
    var k := PainterKeys[i];
    KeysArePlain(i);
    if Recognised(k) {
      var l := AsciiLower(k);
      assert '-' !in l;
      CssNamesHyphenated();
      assert l == CssPropertyNames[3];
      assert |k| == 5;
    }
    if i == 3 {
      assert k == "color";
      LowerOfLower(k);
      assert AsciiLower(k) == CssPropertyNames[3];
    }
  }

  /**
   * As written, the browser recognises only `color` among the fallback's nine
   * declarations: the other eight names, such as `fontWeight`, are not CSS property
   * names in any letter case, so the fallback span loses those eight styles.
   */
  lemma FallbackDropsStyles(p: PainterStyle)
    requires PlainValues(p)
    ensures ParseStyleText(StyleText(Entries(p))) == Entries(p)
    ensures forall i :: 0 <= i < |Entries(p)| ==> (Recognised(Entries(p)[i].0) <==> Entries(p)[i].0 == "color")
  {
    forall i | 0 <= i < |Entries(p)| ensures ':' !in Entries(p)[i].0 && ';' !in Entries(p)[i].0 {
      KeysArePlain(i);
    }
    StyleTextRoundTrip(Entries(p));
    OnlyColorRecognised();
  }

  /**
   * As written, the fallback also puts the style text into the attribute unescaped: a
   * quote in the font family, as in `"Times New Roman", serif`, ends the attribute
   * early, so the browser reads less than the style text.
   */
  lemma FallbackQuoteCutsAttribute(p: PainterStyle, text: string)
    requires '"' in p.fontFamily
    ensures StyleAttribute(FallbackFragment(p, text)).Some?
    ensures StyleAttribute(FallbackFragment(p, text)).value != StyleText(Entries(p))
  {
    var es := Entries(p);
    var parts := seq(|es|, i requires 0 <= i < |es| => es[i].0 + ":" + es[i].1);
    assert parts[5] == "fontFamily:" + p.fontFamily;
    JoinContains(parts, ';', 5, '"');
    var h := FallbackFragment(p, text);
    assert h == SpanOpen + (StyleText(es) + "\">" + text + "</span>");
    assert h[..|SpanOpen|] == SpanOpen;
  }

  lemma OnlyColorRecognised()
    ensures forall i :: 0 <= i < |PainterKeys| ==> (Recognised(PainterKeys[i]) <==> PainterKeys[i] == "color")
  {
    forall i | 0 <= i < |PainterKeys|
      ensures Recognised(PainterKeys[i]) <==> PainterKeys[i] == "color"
    {
      RecognisedKeyIsColor(i);
      ColorKeyAt(i);
    }
  }

  /** `color` is the fourth key and no other: every other key is longer than five letters. */
  lemma ColorKeyAt(i: nat)
    requires i < |PainterKeys|
    ensures PainterKeys[i] == "color" <==> i == 3
  {
    if i != 3 {
      assert |PainterKeys[i]| > 5;
    }
  }

  /**
   * Corrected: the fragment's style attribute, read up to its closing quote and
   * unescaped, is the style text, and that text declares all nine captured properties,
   * the i-th under the CSS name of the i-th captured key, each recognised by the
   * browser, with the captured value verbatim. Quotes inside a value (a quoted font
   * family) no longer end the attribute.
   */
  lemma InlineStyleCarriesAll(p: PainterStyle, text: string)
    requires PlainValues(p)
    ensures StyleAttribute(InlineStyleFragment(p, text)).Some?
    ensures UnescapeAttribute(StyleAttribute(InlineStyleFragment(p, text)).value) == StyleText(CssEntries(p))
    ensures ParseStyleText(UnescapeAttribute(StyleAttribute(InlineStyleFragment(p, text)).value)) == CssEntries(p)
    ensures forall i :: 0 <= i < |CssEntries(p)| ==>
      Recognised(CssEntries(p)[i].0) && CssEntries(p)[i].1 == Entries(p)[i].1
  {
    var es := CssEntries(p);
    SpanAttribute(EscapeAttribute(StyleText(es)), text);
    UnescapeEscape(StyleText(es));
    forall i | 0 <= i < |es| ensures ':' !in es[i].0 && ';' !in es[i].0 && ';' !in es[i].1 {
      KeysArePlain(i);
    }
    StyleTextRoundTrip(es);
    CssNamesAreLowerCase();
    forall i | 0 <= i < |es|
      ensures Recognised(es[i].0)
    {
      LowerOfLower(CssPropertyNames[i]);
    }
  }

  // ---- the painter's state machine ----

  /** The current selection as the mouse-up handler sees it: no range at all, or the first range. */
  datatype Selection = NoRange | Range(collapsed: bool, text: string)

  /** What a mouse-up does to the document. */
  datatype Effect =
    | Unchanged
    | Wrapped(spanStyle: map<string, string>)   // the range's contents now sit inside a span with this inline style
    | InsertedHtml(html: string)                // the range was replaced by this fragment

  /** `painterStyle` (null as `None`) and `painterLocked`. */
  datatype PainterState = PainterState(style: Option<PainterStyle>, locked: bool)

  const InitialPainter := PainterState(None, false)

  /**
   * `capturePainter`: with an element at the selection anchor, its computed style
   * becomes the pending style; without one (no range, or no element) nothing changes.
   */
  function Captured(pending: Option<PainterStyle>, anchor: Option<ComputedStyle>): (r: Option<PainterStyle>)
    ensures anchor.Some? ==> r == Some(Capture(anchor.value))
    ensures anchor.None? ==> r == pending
  {
    match anchor
    case Some(computed) => Some(Capture(computed))
    case None => pending
  }

  /** A single click on the painter button. */
  function OnClick(s: PainterState, anchor: Option<ComputedStyle>): (r: PainterState)
    ensures !r.locked
    ensures s.style.Some? ==> r.style.None?
    ensures s.style.None? ==> r.style == Captured(None, anchor)
  {
    if s.style.Some? then PainterState(None, false)
    else PainterState(Captured(s.style, anchor), false)
  }

  /** A double click on the painter button: capture and lock. */
  function OnDoubleClick(s: PainterState, anchor: Option<ComputedStyle>): (r: PainterState)
    ensures r.locked
    ensures r.style == Captured(s.style, anchor)
  {
    PainterState(Captured(s.style, anchor), true)
  }

  /** `applyPainterToSelection`, run by the editor's mouse-up listener. */
  function OnMouseUp(s: PainterState, sel: Selection, surroundSucceeds: bool): (r: (PainterState, Effect))
    ensures r.1.Unchanged? <==> s.style.None? || sel.NoRange? || sel.collapsed
    ensures r.1.Unchanged? ==> r.0 == s
    ensures !r.1.Unchanged? ==> r.0.locked == s.locked && (r.0.style.None? <==> !s.locked)
    ensures !r.1.Unchanged? && s.locked ==> r.0 == s
    ensures r.1.Wrapped? <==> !r.1.Unchanged? && surroundSucceeds
    ensures r.1.Wrapped? ==> r.1.spanStyle == SpanStyle(s.style.value)
    ensures r.1.InsertedHtml? ==> r.1.html == HtmlSpan(StyleText(Entries(s.style.value)), sel.text)
  {
    match s.style
    case None => (s, Unchanged)
    case Some(p) =>
      if sel.NoRange? || sel.collapsed then (s, Unchanged)
      else
        var effect := if surroundSucceeds then Wrapped(SpanStyle(p)) else InsertedHtml(FallbackFragment(p, sel.text));
        (if s.locked then s else PainterState(None, false), effect)
  }

  /** The mouse-up handler with the corrected fallback: the same state and effect, except that the inserted fragment carries CSS names. */
  function OnMouseUpCorrected(s: PainterState, sel: Selection, surroundSucceeds: bool): (r: (PainterState, Effect))
    ensures r.0 == OnMouseUp(s, sel, surroundSucceeds).0
    ensures r.1.InsertedHtml? <==> OnMouseUp(s, sel, surroundSucceeds).1.InsertedHtml?
    ensures !r.1.InsertedHtml? ==> r.1 == OnMouseUp(s, sel, surroundSucceeds).1
    ensures r.1.InsertedHtml? ==> s.style.Some? && sel.Range? && r.1.html == HtmlSpan(EscapeAttribute(StyleText(CssEntries(s.style.value))), sel.text)
  {
    var (s1, e) := OnMouseUp(s, sel, surroundSucceeds);
    (s1, if e.InsertedHtml? then InsertedHtml(InlineStyleFragment(s.style.value, sel.text)) else e)
  }

  datatype MouseUpEvent = MouseUpEvent(selection: Selection, surroundSucceeds: bool)

  /** The painter state and document effects after a series of mouse-ups. */
  function MouseUps(s: PainterState, ups: seq<MouseUpEvent>): (r: (PainterState, seq<Effect>))
    ensures |r.1| == |ups|
    decreases |ups|
  {
    if |ups| == 0 then (s, [])
    else
      var (s1, e1) := OnMouseUp(s, ups[0].selection, ups[0].surroundSucceeds);
      var (sn, es) := MouseUps(s1, ups[1..]);
      (sn, [e1] + es)
  }

  /** The effect a pending style `p` produces on a mouse-up that applies it. */
  predicate AppliesStyle(e: Effect, p: PainterStyle, up: MouseUpEvent)
  {
    match e
    case Unchanged => true
    case Wrapped(style) => style == SpanStyle(p)
    case InsertedHtml(html) => up.selection.Range? && html == FallbackFragment(p, up.selection.text)
  }

  /** Locked: the pending style survives any number of mouse-ups, and every one of them applies that same style. */
  lemma {:induction false} LockedPainterRepeats(s: PainterState, ups: seq<MouseUpEvent>)
    requires s.locked && s.style.Some?
    decreases |ups|
    ensures MouseUps(s, ups).0 == s
    ensures forall i :: 0 <= i < |ups| ==> AppliesStyle(MouseUps(s, ups).1[i], s.style.value, ups[i])
  {
    if |ups| > 0 {
      LockedPainterRepeats(s, ups[1..]);
      var (s1, e1) := OnMouseUp(s, ups[0].selection, ups[0].surroundSucceeds);
      assert s1 == s;
      var es := MouseUps(s, ups[1..]).1;
      assert MouseUps(s, ups).1 == [e1] + es;
      forall i | 0 <= i < |ups|
        ensures AppliesStyle(MouseUps(s, ups).1[i], s.style.value, ups[i])
      {
        if i > 0 {
          assert MouseUps(s, ups).1[i] == es[i - 1] && ups[i] == ups[1..][i - 1];
        }
      }
    }
  }

  /** The number of mouse-ups that changed the document. */
  function Applications(effects: seq<Effect>): (n: nat)
    ensures n <= |effects|
    ensures n == 0 <==> forall i :: 0 <= i < |effects| ==> effects[i].Unchanged?
  {
    if |effects| == 0 then 0
    else
      var rest := Applications(effects[1..]);
      assert forall i :: 1 <= i < |effects| ==> effects[i] == effects[1..][i - 1];
      (if effects[0].Unchanged? then 0 else 1) + rest
  }

  /** Unlocked: a captured style is applied at most once, and leaves the painter empty and unlocked. */
  lemma {:induction false} UnlockedPainterAppliesOnce(s: PainterState, ups: seq<MouseUpEvent>)
    requires !s.locked
    ensures Applications(MouseUps(s, ups).1) <= 1
    ensures !MouseUps(s, ups).0.locked
    ensures Applications(MouseUps(s, ups).1) == 1 ==> MouseUps(s, ups).0.style.None?
    ensures s.style.None? ==> Applications(MouseUps(s, ups).1) == 0 && MouseUps(s, ups).0 == s
    decreases |ups|
  {
    if |ups| > 0 {
      var (s1, e1) := OnMouseUp(s, ups[0].selection, ups[0].surroundSucceeds);
      UnlockedPainterAppliesOnce(s1, ups[1..]);
      var es := MouseUps(s1, ups[1..]).1;
      assert MouseUps(s, ups).1 == [e1] + es;
      assert ([e1] + es)[1..] == es;
    }
  }

  /**
   * The browser delivers a double click as click, click, dblclick. With an element
   * at the anchor, the gesture ends with that element's style pending and locked,
   * whatever the state before it.
   */
  lemma DoubleClickGesture(s: PainterState, computed: ComputedStyle)
    ensures OnDoubleClick(OnClick(OnClick(s, Some(computed)), Some(computed)), Some(computed))
         == PainterState(Some(Capture(computed)), true)
  {
  }

  // ---- the mouse-up listener ----

  /**
   * The preview as far as the painter goes: the painter state and whether the mouse-up
   * listener sits on the editor element now on screen. The listener is attached by an
   * effect whose dependencies are the pending style (compared by object identity) and
   * the lock, so it moves to the current element only when one of those changes. The
   * editor element is keyed by the rendered HTML, so new HTML replaces the element
   * without re-running that effect, and the listener stays on the removed one.
   */
  datatype Preview = Preview(painter: PainterState, listening: bool)

  datatype PreviewEvent =
    | PainterClick(anchor: Option<ComputedStyle>)
    | PainterDoubleClick(anchor: Option<ComputedStyle>)
    | EditorMouseUp(selection: Selection, surroundSucceeds: bool)
    | HtmlReplaced                                   // new rendered HTML remounts the editor element

  /** On mount the effect attaches the listener to the first editor element. */
  const InitialPreview := Preview(InitialPainter, true)

  /** Whether the listener effect re-runs: a capture always makes a new style object, and otherwise the state must differ. */
  predicate EffectReruns(before: PainterState, after: PainterState, captured: bool)
  {
    captured || before != after
  }

  function PreviewStep(v: Preview, e: PreviewEvent): (r: (Preview, Effect))
  {
    match e
    case PainterClick(anchor) =>
      var p := OnClick(v.painter, anchor);
      (Preview(p, v.listening || EffectReruns(v.painter, p, v.painter.style.None? && anchor.Some?)), Unchanged)
    case PainterDoubleClick(anchor) =>
      var p := OnDoubleClick(v.painter, anchor);
      (Preview(p, v.listening || EffectReruns(v.painter, p, anchor.Some?)), Unchanged)
    case EditorMouseUp(sel, surroundSucceeds) =>
      if v.listening then
        var (p, effect) := OnMouseUp(v.painter, sel, surroundSucceeds);
        (Preview(p, true), effect)
      else (v, Unchanged)
    case HtmlReplaced => (Preview(v.painter, false), Unchanged)
  }

  function PreviewRun(v: Preview, events: seq<PreviewEvent>): (r: (Preview, seq<Effect>))
    ensures |r.1| == |events|
    decreases |events|
  {
    if |events| == 0 then (v, [])
    else
      var (v1, e1) := PreviewStep(v, events[0]);
      var (vn, es) := PreviewRun(v1, events[1..]);
      (vn, [e1] + es)
  }

  /** While the listener is attached, a mouse-up on the editor runs the handler and leaves it attached. */
  lemma ListeningMouseUp(v: Preview, sel: Selection, surroundSucceeds: bool)
    requires v.listening
    ensures PreviewStep(v, EditorMouseUp(sel, surroundSucceeds))
         == (Preview(OnMouseUp(v.painter, sel, surroundSucceeds).0, true), OnMouseUp(v.painter, sel, surroundSucceeds).1)
  {
  }

  /** Capturing a style, or any change of the painter state, attaches the listener to the current editor element. */
  lemma PainterChangeReattaches(v: Preview, e: PreviewEvent)
    requires e.PainterClick? || e.PainterDoubleClick?
    requires (e.PainterDoubleClick? && e.anchor.Some?) || PreviewStep(v, e).0.painter != v.painter
    ensures PreviewStep(v, e).0.listening
  {
  }

  /**
   * Once the editor element has been replaced, mouse-ups and further replacements
   * change nothing at all, whatever is pending: the listener is back only after a
   * painter button changes the painter state.
   */
  lemma {:induction false} DetachedListenerIgnoresMouseUps(v: Preview, events: seq<PreviewEvent>)
    requires !v.listening
    requires forall i :: 0 <= i < |events| ==> events[i].EditorMouseUp? || events[i].HtmlReplaced?
    ensures PreviewRun(v, events).0 == v
    ensures Applications(PreviewRun(v, events).1) == 0
    decreases |events|
  {
    if |events| > 0 {
      assert PreviewStep(v, events[0]) == (v, Unchanged);
      assert forall i :: 0 <= i < |events[1..]| ==> events[1..][i] == events[i + 1];
      DetachedListenerIgnoresMouseUps(v, events[1..]);
      var es := PreviewRun(v, events[1..]).1;
      assert PreviewRun(v, events).1 == [Unchanged] + es;
      assert ([Unchanged] + es)[1..] == es;
    }
  }

  /**
   * As written: lock a captured style, let new HTML arrive (the editor text changed),
   * then select text and release the mouse. Nothing is applied, though the style is
   * still pending and the painter button still shows it locked.
   */
  lemma PendingStyleLostAfterHtmlChange(computed: ComputedStyle, text: string)
    ensures var r := PreviewRun(InitialPreview, [PainterDoubleClick(Some(computed)), HtmlReplaced, EditorMouseUp(Range(false, text), true)]);
      r.0.painter == PainterState(Some(Capture(computed)), true) && r.1[2] == Unchanged
  {
    var evs := [PainterDoubleClick(Some(computed)), HtmlReplaced, EditorMouseUp(Range(false, text), true)];
    var v1 := Preview(PainterState(Some(Capture(computed)), true), true);
    assert PreviewStep(InitialPreview, evs[0]).0 == v1;
    var v2 := Preview(v1.painter, false);
    assert PreviewStep(v1, evs[1]).0 == v2;
    assert PreviewStep(v2, evs[2]) == (v2, Unchanged);
    assert evs[1..][1..] == [evs[2]];
    assert [evs[2]][1..] == [];
    assert PreviewRun(v2, []) == (v2, []);
    assert PreviewRun(v2, [evs[2]]) == (v2, [Unchanged] + []);
    assert [Unchanged] + [] == [Unchanged];
    assert evs[1..][0] == HtmlReplaced;
    assert PreviewRun(v2, evs[1..][1..]) == (v2, [Unchanged]);
    assert PreviewRun(v1, evs[1..]) == (v2, [Unchanged] + [Unchanged]);
  }

  /** Corrected: the listener follows the editor element, so replacing the HTML leaves it attached. */
  function CorrectedPreviewStep(v: Preview, e: PreviewEvent): (r: (Preview, Effect))
    ensures v.listening ==> r.0.listening
    ensures e.EditorMouseUp? && v.listening ==> r.1 == OnMouseUp(v.painter, e.selection, e.surroundSucceeds).1
  {
    if e.HtmlReplaced? then (v, Unchanged) else PreviewStep(v, e)
  }

  function CorrectedPreviewRun(v: Preview, events: seq<PreviewEvent>): (r: (Preview, seq<Effect>))
    ensures |r.1| == |events|
    decreases |events|
  {
    if |events| == 0 then (v, [])
    else
      var (v1, e1) := CorrectedPreviewStep(v, events[0]);
      var (vn, es) := CorrectedPreviewRun(v1, events[1..]);
      (vn, [e1] + es)
  }

  /** Corrected: from mount on, every mouse-up on the editor reaches the handler, whatever happens in between. */
  lemma {:induction false} CorrectedAlwaysListening(v: Preview, events: seq<PreviewEvent>)
    requires v.listening
    ensures CorrectedPreviewRun(v, events).0.listening
    ensures forall i :: 0 <= i < |events| && events[i].EditorMouseUp? ==>
      CorrectedPreviewRun(v, events).1[i] == OnMouseUp(CorrectedPreviewRun(v, events[..i]).0.painter, events[i].selection, events[i].surroundSucceeds).1
    decreases |events|
  {
    if |events| > 0 {
      var (v1, e1) := CorrectedPreviewStep(v, events[0]);
      CorrectedAlwaysListening(v1, events[1..]);
      var es := CorrectedPreviewRun(v1, events[1..]).1;
      assert CorrectedPreviewRun(v, events).1 == [e1] + es;
      forall i | 0 <= i < |events| && events[i].EditorMouseUp?
        ensures CorrectedPreviewRun(v, events).1[i] == OnMouseUp(CorrectedPreviewRun(v, events[..i]).0.painter, events[i].selection, events[i].surroundSucceeds).1
      {
        if i == 0 {
          assert events[..0] == [];
        } else {
          assert events[1..][..i - 1] == events[..i][1..];
          assert events[..i][0] == events[0];
          assert CorrectedPreviewRun(v, events[..i]).0 == CorrectedPreviewRun(v1, events[1..][..i - 1]).0;
          assert events[1..][i - 1] == events[i];
        }
      }
    }
  }

  /** Corrected: the same sequence as `PendingStyleLostAfterHtmlChange` wraps the selection in the locked style. */
  lemma CorrectedAppliesAfterHtmlChange(computed: ComputedStyle, text: string)
    ensures var r := CorrectedPreviewRun(InitialPreview, [PainterDoubleClick(Some(computed)), HtmlReplaced, EditorMouseUp(Range(false, text), true)]);
      r.0.painter == PainterState(Some(Capture(computed)), true) && r.1[2] == Wrapped(SpanStyle(Capture(computed)))
  {
    var evs := [PainterDoubleClick(Some(computed)), HtmlReplaced, EditorMouseUp(Range(false, text), true)];
    var v1 := Preview(PainterState(Some(Capture(computed)), true), true);
    assert CorrectedPreviewStep(InitialPreview, evs[0]).0 == v1;
    assert CorrectedPreviewStep(v1, evs[1]).0 == v1;
    var w := Wrapped(SpanStyle(Capture(computed)));
    assert CorrectedPreviewStep(v1, evs[2]) == (v1, w);
    assert evs[1..][1..] == [evs[2]];
    assert [evs[2]][1..] == [];
    assert CorrectedPreviewRun(v1, []) == (v1, []);
    assert CorrectedPreviewRun(v1, [evs[2]]) == (v1, [w] + []);
    assert [w] + [] == [w];
    assert evs[1..][0] == HtmlReplaced;
    assert CorrectedPreviewRun(v1, evs[1..][1..]) == (v1, [w]);
    assert CorrectedPreviewRun(v1, evs[1..]) == (v1, [Unchanged] + [w]);
  }

  /** The painter as the component holds it: two state cells and the listener the effect keeps on the editor element. */
  class Painter {
    var style: Option<PainterStyle>
    var locked: bool
    var listening: bool

    function State(): Preview
      reads this
    {
      Preview(PainterState(style, locked), listening)
    }

    constructor()
      ensures State() == InitialPreview
    {
      style := None;
      locked := false;
      listening := true;
    }

    method CapturePainter(anchor: Option<ComputedStyle>)
      modifies this
      ensures style == Captured(old(style), anchor) && locked == old(locked) && listening == old(listening)
    {
      if anchor.Some? {
        style := Some(Capture(anchor.value));
      }
    }

    /** `onFormatPainterClick`, then the listener effect if its dependencies changed. */
    method Click(anchor: Option<ComputedStyle>)
      modifies this
      ensures (State(), Unchanged) == PreviewStep(old(State()), PainterClick(anchor))
    {
      var before := PainterState(style, locked);
      if style.Some? {
        style := None;
        locked := false;
      } else {
        CapturePainter(anchor);
        locked := false;
      }
      if EffectReruns(before, PainterState(style, locked), before.style.None? && anchor.Some?) {
        listening := true;
      }
    }

    /** `onFormatPainterLock`, then the listener effect if its dependencies changed. */
    method DoubleClick(anchor: Option<ComputedStyle>)
      modifies this
      ensures (State(), Unchanged) == PreviewStep(old(State()), PainterDoubleClick(anchor))
    {
      var before := PainterState(style, locked);
      CapturePainter(anchor);
      locked := true;
      if EffectReruns(before, PainterState(style, locked), anchor.Some?) {
        listening := true;
      }
    }

    /** A mouse-up on the editor: `applyPainterToSelection` when the listener is on this element. */
    method MouseUp(sel: Selection, surroundSucceeds: bool) returns (effect: Effect)
      modifies this
      ensures (State(), effect) == PreviewStep(old(State()), EditorMouseUp(sel, surroundSucceeds))
    {
      if !listening || style.None? {
        return Unchanged;
      }
      if sel.NoRange? || sel.collapsed {
        return Unchanged;
      }
      var p := style.value;
      var span := StyleSpan(p);
      if surroundSucceeds {
        effect := Wrapped(span);
      } else {
        effect := InsertedHtml(FallbackFragment(p, sel.text));
      }
      if !locked {
        style := None;
      }
    }

    /** New rendered HTML: the editor element is replaced and the listener stays behind on the old one. */
    method ReplaceHtml()
      modifies this
      ensures (State(), Unchanged) == PreviewStep(old(State()), HtmlReplaced)
    {
      listening := false;
    }
  }
}
