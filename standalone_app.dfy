/**
 * The root component of the standalone editor (App.tsx): it starts from a built-in
 * sample document and a default configuration, keeps the preview HTML in step with
 * the text, and generates the preview's style sheet from the configuration. Nothing
 * is sent anywhere.
 */
module StandaloneApp {
  import opened Wrappers
  import opened Text
  import opened EditorTypes
  import opened Stylesheet
  import opened MarkdownRender
  import Sidebar

  const InitialSidebarWidth := 320

  /** The sample document the editor opens with. */
  const DefaultMarkdown: string :=
    "# Markdown to Word Converter\n" +
    "\n" +
    "This is a demo of a real-time Markdown to Word converter.\n" +
    "\n" +
    "## Features\n" +
    "\n" +
    "- **Side-by-side view**: Edit Markdown on the left and see the styled, editable preview on the right.\n" +
    "- **Customizable Styles**: Use the sidebar to change fonts and font sizes for headings.\n" +
    "- **Editable Preview**: Fine-tune the output directly in the right panel using the editor toolbar.\n" +
    "\n" +
    "### How to use\n" +
    "\n" +
    "1.  Type or paste Markdown in this panel.\n" +
    "2.  Upload a `.md` file.\n" +
    "3.  Open the sidebar on the left to configure styles.\n" +
    "4.  Use the toolbar above the right panel to make final edits.\n" +
    "\n" +
    "---\n" +
    "\n" +
    "### Example Table\n" +
    "\n" +
    "| Feature         | Status      | Priority |\n" +
    "|-----------------|-------------|----------|\n" +
    "| Markdown Parsing| Done        | High     |\n" +
    "| Style Config    | Done        | High     |\n" +
    "| Editable Output | Done        | Medium   |\n" +
    "| Export to .docx | Not planned | Low      |\n" +
    "\n" +
    "### Example List\n" +
    "\n" +
    "- Bullet item 1\n" +
    "- Bullet item 2\n" +
    "  - Nested item\n"

  const DefaultEnglishFont := "Times New Roman, serif"
  const DefaultChineseFont := "\"Microsoft YaHei\", \"\U{5FAE}\U{8F6F}\U{96C5}\U{9ED1}\", sans-serif"

  /** The configuration the editor opens with. */
  function DefaultConfig(): (c: Config)
    ensures c.fontFamily.english == DefaultEnglishFont && c.fontFamily.chinese == DefaultChineseFont
    ensures c.fontSize.h1 == 32 && c.fontSize.h2 == 24 && c.fontSize.h3 == 20 && c.fontSize.body == 16
    ensures c.colors.markdownBg == "#ffffff" && c.colors.wordBg == "#ffffff"
  {
    Config(FontFamily(DefaultEnglishFont, DefaultChineseFont),
           FontSize(32, 24, 20, 16),
           Colors("#ffffff", "#ffffff"))
  }

  datatype AppState = AppState(
    markdownText: string,
    config: Config,
    htmlOutput: string,
    sidebarOpen: bool,
    sidebarWidth: int)

  datatype AppEvent =
    | EditText(text: string)                               // the Markdown input's onChange
    | EditConfig(config: Config)                           // the sidebar's setConfig
    | SetSidebarOpen(open: bool)
    | SetSidebarWidth(width: int)

  /** The state of the first render, before any effect has run. */
  function Initial(): (s: AppState)
    ensures s.markdownText == DefaultMarkdown && s.htmlOutput == ""
    ensures s.config == DefaultConfig()
    ensures s.sidebarOpen && Sidebar.InRange(s.sidebarWidth)
  {
    AppState(DefaultMarkdown, DefaultConfig(), "", true, InitialSidebarWidth)
  }

  /** The state once the mount effect has rendered the sample document. */
  function Mount(parser: Parser): (s: AppState)
    ensures s.markdownText == DefaultMarkdown
    ensures s.htmlOutput == (if parser.Some? then parser.value(DefaultMarkdown) else "")
    ensures s.config == DefaultConfig() && s.sidebarOpen && s.sidebarWidth == InitialSidebarWidth
  {
    Initial().(htmlOutput := RecomputeHtml("", DefaultMarkdown, parser))
  }

  function Step(s: AppState, e: AppEvent, parser: Parser): (r: AppState)
    ensures e.EditText? ==> r.markdownText == e.text && r.config == s.config
    ensures e.EditConfig? ==> r.config == e.config && r.markdownText == s.markdownText
    ensures e.SetSidebarOpen? || e.SetSidebarWidth? ==> r.markdownText == s.markdownText && r.config == s.config
    ensures e.SetSidebarOpen? ==> r.sidebarOpen == e.open && r.sidebarWidth == s.sidebarWidth
    ensures e.SetSidebarWidth? ==> r.sidebarWidth == e.width && r.sidebarOpen == s.sidebarOpen
    ensures !e.SetSidebarOpen? && !e.SetSidebarWidth? ==> r.sidebarOpen == s.sidebarOpen && r.sidebarWidth == s.sidebarWidth
    ensures r.markdownText == s.markdownText ==> r.htmlOutput == s.htmlOutput
  {
    match e
    case EditText(t) =>
      var (text, html) := SetText(s.markdownText, s.htmlOutput, t, parser);
      s.(markdownText := text, htmlOutput := html)
    case EditConfig(c) =>
      s.(config := c)
    case SetSidebarOpen(b) =>
      s.(sidebarOpen := b)
    case SetSidebarWidth(w) =>
      s.(sidebarWidth := w)
  }

  function Run(s: AppState, events: seq<AppEvent>, parser: Parser): AppState
    decreases |events|
  {
    if |events| == 0 then s else Run(Step(s, events[0], parser), events[1..], parser)
  }

  /** With the parser loaded, the preview HTML is always the parse of the current text. */
  lemma {:induction false} HtmlTracksText(s: AppState, events: seq<AppEvent>, parse: string -> string)
    requires s.htmlOutput == parse(s.markdownText)
    ensures Run(s, events, Some(parse)).htmlOutput == parse(Run(s, events, Some(parse)).markdownText)
    decreases |events|
  {
    if |events| > 0 {
      var s' := Step(s, events[0], Some(parse));
      assert s'.htmlOutput == parse(s'.markdownText);
      HtmlTracksText(s', events[1..], parse);
    }
  }

  lemma MountedHtmlTracksText(events: seq<AppEvent>, parse: string -> string)
    ensures var r := Run(Mount(Some(parse)), events, Some(parse));
            r.htmlOutput == parse(r.markdownText)
  {
    HtmlTracksText(Mount(Some(parse)), events, parse);
  }

  /** Without a parser the HTML never changes, so it stays empty from the first render on. */
  lemma {:induction false} HtmlWithoutParser(s: AppState, events: seq<AppEvent>)
    ensures Run(s, events, None).htmlOutput == s.htmlOutput
    decreases |events|
  {
    if |events| > 0 {
      HtmlWithoutParser(Step(s, events[0], None), events[1..]);
    }
  }

  lemma MountedHtmlWithoutParser(events: seq<AppEvent>)
    ensures Run(Mount(None), events, None).htmlOutput == ""
  {
    HtmlWithoutParser(Mount(None), events);
  }

  /** The width starts inside the sidebar's range, and dragging keeps it there. */
  lemma InitialWidthInRange(events: seq<Sidebar.ResizeEvent>)
    ensures Sidebar.InRange(InitialSidebarWidth)
    ensures Sidebar.InRange(Sidebar.Run(Sidebar.Mounted(InitialSidebarWidth), events).width)
  {
    Sidebar.RunKeepsRange(Sidebar.Mounted(InitialSidebarWidth), events);
  }

  /** The preview's base rule: the configured font family and body size. */
  function BaseRule(c: Config): Rule
  {
    Rule(".word-preview", [
      Declaration("font-family", c.fontFamily.english + ", " + c.fontFamily.chinese),
      Declaration("font-size", IntToString(c.fontSize.body) + "px"),
      Declaration("line-height", "1.6")])
  }

  function H1Rule(c: Config): Rule
  {
    Rule(".word-preview h1", [
      Declaration("font-size", IntToString(c.fontSize.h1) + "px"),
      Declaration("font-weight", "bold"),
      Declaration("margin-top", "24px"),
      Declaration("margin-bottom", "12px"),
      Declaration("border-bottom", "1px solid #e2e8f0"),
      Declaration("padding-bottom", "4px")])
  }

  function H2Rule(c: Config): Rule
  {
    Rule(".word-preview h2", [
      Declaration("font-size", IntToString(c.fontSize.h2) + "px"),
      Declaration("font-weight", "bold"),
      Declaration("margin-top", "20px"),
      Declaration("margin-bottom", "10px")])
  }

  function H3Rule(c: Config): Rule
  {
    Rule(".word-preview h3", [
      Declaration("font-size", IntToString(c.fontSize.h3) + "px"),
      Declaration("font-weight", "bold"),
      Declaration("margin-top", "16px"),
      Declaration("margin-bottom", "8px")])
  }

  /** The rules that do not depend on the configuration. */
  function FixedRules(): seq<Rule>
  {
    [ Rule(".word-preview p", [
        Declaration("margin-bottom", "16px")]),
      Rule(".word-preview ul, .word-preview ol", [
        Declaration("margin-left", "24px"),
        Declaration("margin-bottom", "16px")]),
      Rule(".word-preview table", [
        Declaration("width", "100%"),
        Declaration("border-collapse", "collapse"),
        Declaration("margin-bottom", "16px")]),
      Rule(".word-preview th, .word-preview td", [
        Declaration("border", "1px solid #cbd5e0"),
        Declaration("padding", "8px 12px")]),
      Rule(".word-preview th", [
        Declaration("background-color", "#f7fafc"),
        Declaration("font-weight", "bold")]),
      Rule(".word-preview code", [
        Declaration("background-color", "#edf2f7"),
        Declaration("padding", "2px 4px"),
        Declaration("border-radius", "4px"),
        Declaration("font-family", "monospace")]),
      Rule(".word-preview blockquote", [
        Declaration("border-left", "4px solid #e2e8f0"),
        Declaration("padding-left", "16px"),
        Declaration("color", "#718096"),
        Declaration("margin-left", "0"),
        Declaration("margin-right", "0")])
    ]
  }

  /** `generatedCss`: the rules of the `<style>` element, in template order. */
  function StyleRules(c: Config): (rules: seq<Rule>)
    ensures |rules| == 4 + |FixedRules()| && rules[4..] == FixedRules()
    ensures rules[0].selector == ".word-preview"
    ensures rules[1].selector == ".word-preview h1" && rules[2].selector == ".word-preview h2" && rules[3].selector == ".word-preview h3"
  {
    [BaseRule(c), H1Rule(c), H2Rule(c), H3Rule(c)] + FixedRules()
  }

  /** The text of the `<style>` element: each declaration of `StyleRules(c)` is a line of it. */
  function GeneratedCss(c: Config): (css: string)
    ensures forall i, j :: 0 <= i < |StyleRules(c)| && 0 <= j < |StyleRules(c)[i].declarations| ==>
      Occurs(RenderDeclaration(StyleRules(c)[i].declarations[j]), css)
  {
    AllDeclarationsRendered(StyleRules(c));
    Render(StyleRules(c))
  }

  /** The colours are applied to the panels, not the sheet: the sheet ignores them. */
  lemma CssIgnoresColors(c: Config, colors: Colors)
    ensures GeneratedCss(c.(colors := colors)) == GeneratedCss(c)
  {
  }

  /**
   * The preview's font family lists the English font, then the Chinese one, and the
   * line carrying them appears in the sheet.
   */
  lemma CssFontFamily(c: Config) returns (k: nat)
    ensures FirstDeclaredValue(StyleRules(c), ".word-preview", "font-family")
            == Some(c.fontFamily.english + ", " + c.fontFamily.chinese)
    ensures OccursAt(Spaces(16) + "font-family: " + c.fontFamily.english + ", " + c.fontFamily.chinese + ";\n",
                     GeneratedCss(c), k)
  {
    FirstDeclaredValueAt(StyleRules(c), 0, 0);
    k := DeclarationRendered(StyleRules(c), 0, 0);
    FontFamilyLine(c);
  }

  lemma FontFamilyLine(c: Config)
    ensures RenderDeclaration(StyleRules(c)[0].declarations[0])
            == Spaces(16) + "font-family: " + c.fontFamily.english + ", " + c.fontFamily.chinese + ";\n"
  {
  }

  /** Body text and each heading level take their size, in pixels, from the configuration. */
  lemma CssFontSizes(c: Config)
    ensures FirstDeclaredValue(StyleRules(c), ".word-preview", "font-size") == Some(IntToString(c.fontSize.body) + "px")
    ensures FirstDeclaredValue(StyleRules(c), ".word-preview h1", "font-size") == Some(IntToString(c.fontSize.h1) + "px")
    ensures FirstDeclaredValue(StyleRules(c), ".word-preview h2", "font-size") == Some(IntToString(c.fontSize.h2) + "px")
    ensures FirstDeclaredValue(StyleRules(c), ".word-preview h3", "font-size") == Some(IntToString(c.fontSize.h3) + "px")
  {
    BodySize(c);
    H1Size(c);
    H2Size(c);
    H3Size(c);
  }

  lemma BodySize(c: Config)
    ensures FirstDeclaredValue(StyleRules(c), ".word-preview", "font-size") == Some(IntToString(c.fontSize.body) + "px")
  {
    FirstDeclaredValueAt(StyleRules(c), 0, 1);
  }

  lemma H1Size(c: Config)
    ensures FirstDeclaredValue(StyleRules(c), ".word-preview h1", "font-size") == Some(IntToString(c.fontSize.h1) + "px")
  {
    FirstDeclaredValueAt(StyleRules(c), 1, 0);
  }

  lemma H2Size(c: Config)
    ensures FirstDeclaredValue(StyleRules(c), ".word-preview h2", "font-size") == Some(IntToString(c.fontSize.h2) + "px")
  {
    var rules := StyleRules(c);
    assert rules[1].selector[15] != rules[2].selector[15];
    FirstDeclaredValueAt(rules, 2, 0);
  }

  lemma H3Size(c: Config)
    ensures FirstDeclaredValue(StyleRules(c), ".word-preview h3", "font-size") == Some(IntToString(c.fontSize.h3) + "px")
  {
    var rules := StyleRules(c);
    assert rules[1].selector[15] != rules[3].selector[15];
    assert rules[2].selector[15] != rules[3].selector[15];
    FirstDeclaredValueAt(rules, 3, 0);
  }

  /**
   * The sheet the editor opens with (and any configuration with its fonts and sizes,
   * whatever the colours) sets 16px body text and 32, 24 and 20px headings.
   */
  lemma DefaultSheet(c: Config)
    requires c.fontFamily == DefaultConfig().fontFamily && c.fontSize == DefaultConfig().fontSize
    ensures FirstDeclaredValue(StyleRules(c), ".word-preview", "font-family")
            == Some(DefaultEnglishFont + ", " + DefaultChineseFont)
    ensures FirstDeclaredValue(StyleRules(c), ".word-preview", "font-size") == Some("16px")
    ensures FirstDeclaredValue(StyleRules(c), ".word-preview h1", "font-size") == Some("32px")
    ensures FirstDeclaredValue(StyleRules(c), ".word-preview h2", "font-size") == Some("24px")
    ensures FirstDeclaredValue(StyleRules(c), ".word-preview h3", "font-size") == Some("20px")
  {
    FirstDeclaredValueAt(StyleRules(c), 0, 0);
    CssFontSizes(c);
    PixelTexts();
  }

  lemma PixelTexts()
    ensures IntToString(16) + "px" == "16px" && IntToString(32) + "px" == "32px"
    ensures IntToString(24) + "px" == "24px" && IntToString(20) + "px" == "20px"
  {
    assert IntToString(16) == "16" && IntToString(32) == "32";
    assert IntToString(24) == "24" && IntToString(20) == "20";
    assert "16" + "px" == "16px";
    assert "32" + "px" == "32px";
    assert "24" + "px" == "24px";
    assert "20" + "px" == "20px";
  }

  /** The component's hook state; each method is one state update and its effect. */
  class App {
    var markdownText: string
    var config: Config
    var htmlOutput: string
    var isSidebarOpen: bool
    var sidebarWidth: int
    const parser: Parser

    function State(): AppState
      reads this
    {
      AppState(markdownText, config, htmlOutput, isSidebarOpen, sidebarWidth)
    }

    constructor(parser0: Parser)
      ensures State() == Mount(parser0) && parser == parser0
    {
      markdownText := DefaultMarkdown;
      config := DefaultConfig();
      htmlOutput := RecomputeHtml("", DefaultMarkdown, parser0);
      isSidebarOpen := true;
      sidebarWidth := InitialSidebarWidth;
      parser := parser0;
    }

    method EditText(t: string)
      modifies this
      ensures State() == Step(old(State()), AppEvent.EditText(t), parser)
    {
      if t != markdownText {
        htmlOutput := RecomputeHtml(htmlOutput, t, parser);
      }
      markdownText := t;
    }

    method EditConfig(c: Config)
      modifies this
      ensures State() == Step(old(State()), AppEvent.EditConfig(c), parser)
    {
      config := c;
    }

    method SetSidebarOpen(b: bool)
      modifies this
      ensures State() == Step(old(State()), AppEvent.SetSidebarOpen(b), parser)
    {
      isSidebarOpen := b;
    }

    /**
     * `setSidebarWidth`, passed to the sidebar as its `setWidth`. The argument is a
     * width the resize handle produced (a `Sidebar.Step` of a mouse move, which keeps it
     * within `Sidebar.InRange`); the root component does not check it again.
     */
    method SetSidebarWidth(w: int)
      modifies this
      ensures State() == Step(old(State()), AppEvent.SetSidebarWidth(w), parser)
    {
      sidebarWidth := w;
    }
  }
}
