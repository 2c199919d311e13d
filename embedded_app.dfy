/**
 * The root component of the embedded editor (markdown_to_word/frontend/src/App.tsx),
 * which lives inside a host page: the host passes the Markdown text and the
 * configuration in as props, and the component sends its state back, debounced, only
 * when that state differs from what the host passed in.
 *
 * The host's props are `initialText` and `initialConfig` of the state. A host re-render
 * passes the text by value (the text effect compares strings) and the configuration by
 * reference (the config effect compares object identity), so a `HostRender` event
 * carries `None` when the host passed the same configuration object again.
 */
module EmbeddedApp {
  import opened Wrappers
  import opened Text
  import opened EditorTypes
  import opened Stylesheet
  import opened MarkdownRender
  import Sidebar

  const InitialSidebarWidth := 260

  /** What `setComponentValue` hands to the host. */
  datatype ComponentValue = ComponentValue(markdownText: string, config: Config)

  datatype AppState = AppState(
    initialText: string,
    initialConfig: Config,
    markdownText: string,
    config: Config,
    htmlOutput: string,
    sidebarOpen: bool,
    sidebarWidth: int)

  datatype AppEvent =
    | EditText(text: string)                               // the Markdown input's onChange
    | EditConfig(config: Config)                           // the sidebar's setConfig
    | HostRender(text: string, configObject: Option<Config>)
    | SetSidebarOpen(open: bool)
    | SetSidebarWidth(width: int)

  /** The state after the first render and its mount effects. */
  function Mount(text: string, config: Config, parser: Parser): (s: AppState)
    ensures s.initialText == s.markdownText == text
    ensures s.initialConfig == s.config == config
    ensures s.htmlOutput == (if parser.Some? then parser.value(text) else "")
    ensures s.sidebarOpen && s.sidebarWidth == InitialSidebarWidth
    ensures !ShouldSend(s)
  {
    AppState(text, config, text, config, RecomputeHtml("", text, parser), true, InitialSidebarWidth)
  }

  /** The guard of the debounced send-back: the state differs from the props. */
  predicate ShouldSend(s: AppState)
  {
    s.markdownText != s.initialText || s.config != s.initialConfig
  }

  /** What the debounce timer sends when it fires, if anything. */
  function Outgoing(s: AppState): (v: Option<ComponentValue>)
    ensures v.Some? <==> (s.markdownText != s.initialText || s.config != s.initialConfig)
    ensures v.Some? ==> v.value.markdownText == s.markdownText && v.value.config == s.config
  {
    if ShouldSend(s) then Some(ComponentValue(s.markdownText, s.config)) else None
  }

  function Step(s: AppState, e: AppEvent, parser: Parser): (r: AppState)
    ensures e.EditText? ==> r.markdownText == e.text && r.config == s.config
    ensures e.HostRender? ==> r.initialText == e.text
    ensures e.HostRender? && e.text != s.initialText ==> r.markdownText == e.text
    ensures e.HostRender? && e.text == s.initialText ==> r.markdownText == s.markdownText
    ensures e.HostRender? && e.configObject.Some? ==> r.config == r.initialConfig == e.configObject.value
    ensures e.HostRender? && e.configObject.None? ==> r.config == s.config && r.initialConfig == s.initialConfig
    ensures e.EditConfig? ==> r.config == e.config && r.markdownText == s.markdownText
    ensures e.SetSidebarOpen? || e.SetSidebarWidth? ==> r.markdownText == s.markdownText && r.config == s.config
    ensures e.SetSidebarOpen? ==> r.sidebarOpen == e.open && r.sidebarWidth == s.sidebarWidth
    ensures e.SetSidebarWidth? ==> r.sidebarWidth == e.width && r.sidebarOpen == s.sidebarOpen
    ensures !e.SetSidebarOpen? && !e.SetSidebarWidth? ==> r.sidebarOpen == s.sidebarOpen && r.sidebarWidth == s.sidebarWidth
    ensures !e.HostRender? ==> r.initialText == s.initialText && r.initialConfig == s.initialConfig
    ensures r.markdownText == s.markdownText ==> r.htmlOutput == s.htmlOutput
  {
    match e
    case EditText(t) =>
      var (text, html) := SetText(s.markdownText, s.htmlOutput, t, parser);
      s.(markdownText := text, htmlOutput := html)
    case EditConfig(c) =>
      s.(config := c)
    case HostRender(t, configObject) =>
      var (text, html) :=
        if t != s.initialText then SetText(s.markdownText, s.htmlOutput, t, parser)
        else (s.markdownText, s.htmlOutput);
      var s' := s.(initialText := t, markdownText := text, htmlOutput := html);
      if configObject.Some? then s'.(initialConfig := configObject.value, config := configObject.value)
      else s'
    case SetSidebarOpen(b) =>
      s.(sidebarOpen := b)
    case SetSidebarWidth(w) =>
      s.(sidebarWidth := w)
  }

  function Run(s: AppState, events: seq<AppEvent>, parser: Parser): AppState
    decreases |events|
  {
    if |events| == 0 then s else Run(Step(s, events[0], parser), events[1..], parser)
  }

  /** With the parser loaded, the preview HTML is always the parse of the current text. */
  lemma {:induction false} HtmlTracksText(s: AppState, events: seq<AppEvent>, parse: string -> string)
    requires s.htmlOutput == parse(s.markdownText)
    ensures Run(s, events, Some(parse)).htmlOutput == parse(Run(s, events, Some(parse)).markdownText)
    decreases |events|
  {
    if |events| > 0 {
      var s' := Step(s, events[0], Some(parse));
      assert s'.htmlOutput == parse(s'.markdownText);
      HtmlTracksText(s', events[1..], parse);
    }
  }

  /** From mount on, with the parser loaded, the HTML is the parse of the current text. */
  lemma MountedHtmlTracksText(text: string, config: Config, events: seq<AppEvent>, parse: string -> string)
    ensures var r := Run(Mount(text, config, Some(parse)), events, Some(parse));
            r.htmlOutput == parse(r.markdownText)
  {
    HtmlTracksText(Mount(text, config, Some(parse)), events, parse);
  }

  /** Without a parser the HTML never changes, so after mount it stays empty. */
  lemma {:induction false} HtmlWithoutParser(s: AppState, events: seq<AppEvent>)
    ensures Run(s, events, None).htmlOutput == s.htmlOutput
    decreases |events|
  {
    if |events| > 0 {
      HtmlWithoutParser(Step(s, events[0], None), events[1..]);
    }
  }

  lemma MountedHtmlWithoutParser(text: string, config: Config, events: seq<AppEvent>)
    ensures Run(Mount(text, config, None), events, None).htmlOutput == ""
  {
    HtmlWithoutParser(Mount(text, config, None), events);
  }

  /**
   * After the host passes a new configuration object, nothing is sent back unless a
   * local edit of the text is pending against a text prop that did not change.
   */
  lemma HostRenderSettles(s: AppState, t: string, c: Config, parser: Parser)
    ensures ShouldSend(Step(s, HostRender(t, Some(c)), parser))
            <==> (t == s.initialText && s.markdownText != t)
  {
  }

  /** When the host echoes back exactly what was sent, the exchange stops there. */
  lemma EchoEndsExchange(s: AppState, parser: Parser)
    requires ShouldSend(s)
    ensures var v := Outgoing(s).value;
            !ShouldSend(Step(s, HostRender(v.markdownText, Some(v.config)), parser))
  {
    HostRenderSettles(s, s.markdownText, s.config, parser);
  }

  /** The same configuration object leaves local edits of the configuration in place. */
  lemma SameConfigObjectKeepsLocalEdits(s: AppState, t: string, parser: Parser)
    requires s.config != s.initialConfig
    ensures ShouldSend(Step(s, HostRender(t, None), parser))
  {
  }

  /** The width starts below the sidebar's minimum and only a drag into the range changes it. */
  lemma InitialWidthBelowRange(events: seq<Sidebar.ResizeEvent>)
    ensures !Sidebar.InRange(InitialSidebarWidth)
    ensures var w := Sidebar.Run(Sidebar.Mounted(InitialSidebarWidth), events).width;
            w == InitialSidebarWidth || Sidebar.InRange(w)
  {
    Sidebar.RunWidthOrigin(Sidebar.Mounted(InitialSidebarWidth), events);
  }

  /** The preview's base rule: the configured font family and body size. */
  function BaseRule(c: Config): Rule
  {
    Rule(".word-preview", [
      Declaration("font-family", c.fontFamily.english + ", " + c.fontFamily.chinese),
      Declaration("font-size", IntToString(c.fontSize.body) + "px"),
      Declaration("line-height", "1.6"),
      Declaration("color", "#1f2937")])
  }

  function H1Rule(c: Config): Rule
  {
    Rule(".word-preview h1", [
      Declaration("font-size", IntToString(c.fontSize.h1) + "px"),
      Declaration("font-weight", "bold"),
      Declaration("margin-top", "12px"),
      Declaration("margin-bottom", "8px"),
      Declaration("border-bottom", "1px solid #e2e8f0"),
      Declaration("padding-bottom", "2px")])
  }

  function H2Rule(c: Config): Rule
  {
    Rule(".word-preview h2", [
      Declaration("font-size", IntToString(c.fontSize.h2) + "px"),
      Declaration("font-weight", "bold"),
      Declaration("margin-top", "10px"),
      Declaration("margin-bottom", "6px")])
  }

  function H3Rule(c: Config): Rule
  {
    Rule(".word-preview h3", [
      Declaration("font-size", IntToString(c.fontSize.h3) + "px"),
      Declaration("font-weight", "bold"),
      Declaration("margin-top", "8px"),
      Declaration("margin-bottom", "4px")])
  }

  /** The rules that do not depend on the configuration. */
  function FixedRules(): seq<Rule>
  {
    [ Rule(".word-preview p", [
        Declaration("margin-bottom", "12px")]),
      Rule(".word-preview ul, .word-preview ol", [
        Declaration("margin-left", "20px"),
        Declaration("margin-bottom", "12px")]),
      Rule(".word-preview table", [
        Declaration("width", "100%"),
        Declaration("border-collapse", "collapse"),
        Declaration("margin-bottom", "12px")]),
      Rule(".word-preview th, .word-preview td", [
        Declaration("border", "1px solid #cbd5e0"),
        Declaration("padding", "6px 10px")]),
      Rule(".word-preview th", [
        Declaration("background-color", "#f7fafc"),
        Declaration("font-weight", "bold")]),
      Rule(".word-preview code", [
        Declaration("background-color", "#e5e7eb"),
        Declaration("padding", "2px 4px"),
        Declaration("border-radius", "4px"),
        Declaration("font-family", "monospace")]),
      Rule(".word-preview blockquote", [
        Declaration("border-left", "4px solid #e2e8f0"),
        Declaration("padding-left", "12px"),
        Declaration("color", "#4a5568"),
        Declaration("margin-left", "0"),
        Declaration("margin-right", "0")])
    ]
  }

  /** `generatedCss`: the rules of the `<style>` element, in template order. */
  function StyleRules(c: Config): (rules: seq<Rule>)
    ensures |rules| == 4 + |FixedRules()| && rules[4..] == FixedRules()
    ensures rules[0].selector == ".word-preview"
    ensures rules[1].selector == ".word-preview h1" && rules[2].selector == ".word-preview h2" && rules[3].selector == ".word-preview h3"
  {
    [BaseRule(c), H1Rule(c), H2Rule(c), H3Rule(c)] + FixedRules()
  }

  /** The text of the `<style>` element: each declaration of `StyleRules(c)` is a line of it. */
  function GeneratedCss(c: Config): (css: string)
    ensures forall i, j :: 0 <= i < |StyleRules(c)| && 0 <= j < |StyleRules(c)[i].declarations| ==>
      Occurs(RenderDeclaration(StyleRules(c)[i].declarations[j]), css)
  {
    AllDeclarationsRendered(StyleRules(c));
    Render(StyleRules(c))
  }

  /** The colours are applied to the panels, not the sheet: the sheet ignores them. */
  lemma CssIgnoresColors(c: Config, colors: Colors)
    ensures GeneratedCss(c.(colors := colors)) == GeneratedCss(c)
  {
  }

  /**
   * The preview's font family lists the English font, then the Chinese one, and the
   * line carrying them appears in the sheet.
   */
  lemma CssFontFamily(c: Config) returns (k: nat)
    ensures FirstDeclaredValue(StyleRules(c), ".word-preview", "font-family")
            == Some(c.fontFamily.english + ", " + c.fontFamily.chinese)
    ensures OccursAt(Spaces(16) + "font-family: " + c.fontFamily.english + ", " + c.fontFamily.chinese + ";\n",
                     GeneratedCss(c), k)
  {
    FirstDeclaredValueAt(StyleRules(c), 0, 0);
    k := DeclarationRendered(StyleRules(c), 0, 0);
    FontFamilyLine(c);
  }

  lemma FontFamilyLine(c: Config)
    ensures RenderDeclaration(StyleRules(c)[0].declarations[0])
            == Spaces(16) + "font-family: " + c.fontFamily.english + ", " + c.fontFamily.chinese + ";\n"
  {
  }

  /** Body text and each heading level take their size, in pixels, from the configuration. */
  lemma CssFontSizes(c: Config)
    ensures FirstDeclaredValue(StyleRules(c), ".word-preview", "font-size") == Some(IntToString(c.fontSize.body) + "px")
    ensures FirstDeclaredValue(StyleRules(c), ".word-preview h1", "font-size") == Some(IntToString(c.fontSize.h1) + "px")
    ensures FirstDeclaredValue(StyleRules(c), ".word-preview h2", "font-size") == Some(IntToString(c.fontSize.h2) + "px")
    ensures FirstDeclaredValue(StyleRules(c), ".word-preview h3", "font-size") == Some(IntToString(c.fontSize.h3) + "px")
  {
    BodySize(c);
    H1Size(c);
    H2Size(c);
    H3Size(c);
  }

  lemma BodySize(c: Config)
    ensures FirstDeclaredValue(StyleRules(c), ".word-preview", "font-size") == Some(IntToString(c.fontSize.body) + "px")
  {
    FirstDeclaredValueAt(StyleRules(c), 0, 1);
  }

  lemma H1Size(c: Config)
    ensures FirstDeclaredValue(StyleRules(c), ".word-preview h1", "font-size") == Some(IntToString(c.fontSize.h1) + "px")
  {
    FirstDeclaredValueAt(StyleRules(c), 1, 0);
  }

  lemma H2Size(c: Config)
    ensures FirstDeclaredValue(StyleRules(c), ".word-preview h2", "font-size") == Some(IntToString(c.fontSize.h2) + "px")
  {
    var rules := StyleRules(c);
    assert rules[1].selector[15] != rules[2].selector[15];
    FirstDeclaredValueAt(rules, 2, 0);
  }

  lemma H3Size(c: Config)
    ensures FirstDeclaredValue(StyleRules(c), ".word-preview h3", "font-size") == Some(IntToString(c.fontSize.h3) + "px")
  {
    var rules := StyleRules(c);
    assert rules[1].selector[15] != rules[3].selector[15];
    assert rules[2].selector[15] != rules[3].selector[15];
    FirstDeclaredValueAt(rules, 3, 0);
  }

  /** The component's hook state; each method is one state update and its effects. */
  class App {
    var initialText: string
    var initialConfig: Config
    var markdownText: string
    var config: Config
    var htmlOutput: string
    var isSidebarOpen: bool
    var sidebarWidth: int
    const parser: Parser

    function State(): AppState
      reads this
    {
      AppState(initialText, initialConfig, markdownText, config, htmlOutput, isSidebarOpen, sidebarWidth)
    }

    constructor(text: string, config0: Config, parser0: Parser)
      ensures State() == Mount(text, config0, parser0) && parser == parser0
    {
      initialText := text;
      initialConfig := config0;
      markdownText := text;
      config := config0;
      htmlOutput := RecomputeHtml("", text, parser0);
      isSidebarOpen := true;
      sidebarWidth := InitialSidebarWidth;
      parser := parser0;
    }

    method EditText(t: string)
      modifies this
      ensures State() == Step(old(State()), AppEvent.EditText(t), parser)
    {
      if t != markdownText {
        htmlOutput := RecomputeHtml(htmlOutput, t, parser);
      }
      markdownText := t;
    }

    method EditConfig(c: Config)
      modifies this
      ensures State() == Step(old(State()), AppEvent.EditConfig(c), parser)
    {
      config := c;
    }

    method HostRender(t: string, configObject: Option<Config>)
      modifies this
      ensures State() == Step(old(State()), AppEvent.HostRender(t, configObject), parser)
    {
      if t != initialText {
        if t != markdownText {
          htmlOutput := RecomputeHtml(htmlOutput, t, parser);
        }
        markdownText := t;
      }
      initialText := t;
      if configObject.Some? {
        initialConfig := configObject.value;
        config := configObject.value;
      }
    }

    method SetSidebarOpen(b: bool)
      modifies this
      ensures State() == Step(old(State()), AppEvent.SetSidebarOpen(b), parser)
    {
      isSidebarOpen := b;
    }

    /**
     * `setSidebarWidth`, passed to the sidebar as its `setWidth`. The argument is a
     * width the resize handle produced (a `Sidebar.Step` of a mouse move, which keeps it
     * within `Sidebar.InRange`); the root component does not check it again.
     */
    method SetSidebarWidth(w: int)
      modifies this
      ensures State() == Step(old(State()), AppEvent.SetSidebarWidth(w), parser)
    {
      sidebarWidth := w;
    }

    /** The debounce timer firing: the guarded `sendStateToStreamlit`. */
    method DebounceFires() returns (sent: Option<ComponentValue>)
      ensures sent.Some? <==> (markdownText != initialText || config != initialConfig)
      ensures sent.Some? ==> sent.value == ComponentValue(markdownText, config)
    {
      if markdownText != initialText || config != initialConfig {
        sent := Some(ComponentValue(markdownText, config));
      } else {
        sent := None;
      }
    }
  }
}
