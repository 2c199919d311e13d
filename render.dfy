/**
 * The HTML effect both root components share: whenever the Markdown text changes, the
 * HTML becomes the parser's output for it, provided `window.marked` is loaded; without
 * a parser the HTML keeps its previous value.
 */
module MarkdownRender {
  import opened Wrappers

  /** `window.marked.parse`, or `None` when the page has no parser. */
  type Parser = Option<string -> string>

  function RecomputeHtml(html: string, text: string, parser: Parser): (h: string)
    ensures parser.Some? ==> h == parser.value(text)
    ensures parser.None? ==> h == html
  {
    match parser
    case Some(parse) => parse(text)
    case None => html
  }

  /**
   * `setMarkdownText(t)` followed by the effect keyed on the text: the effect runs only
   * when the text actually changed. Returns the new text and HTML.
   */
  function SetText(text: string, html: string, newText: string, parser: Parser): (r: (string, string))
    ensures r.0 == newText
    ensures newText != text ==> r.1 == RecomputeHtml(html, newText, parser)
    ensures newText == text ==> r.1 == html
  {
    (newText, if newText != text then RecomputeHtml(html, newText, parser) else html)
  }
}
