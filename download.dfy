/**
 * The document the preview's download button saves (components/WordPreview.tsx,
 * `downloadDoc`): the editable surface's current inner HTML inside a fixed skeleton,
 * saved as `document.doc` with the MIME type that Word opens.
 */
module Download {
  import opened Wrappers

  const DocumentHead := "<!DOCTYPE html><html><head><meta charset=\"utf-8\"></head><body>"
  const DocumentTail := "</body></html>"
  const FileName := "document.doc"
  const MimeType := "application/msword"

  datatype DownloadFile = DownloadFile(name: string, mimeType: string, contents: string)

  /** `editorRef.current?.innerHTML || ''`: no editor (`None`) reads as empty markup. */
  function EditorMarkup(innerHtml: Option<string>): (s: string)
    ensures innerHtml.Some? ==> s == innerHtml.value
    ensures innerHtml.None? ==> s == ""
  {
    match innerHtml
    case Some(html) => html
    case None => ""
  }

  /** The saved text: the editor's markup between the skeleton's head and tail. */
  function DocumentHtml(innerHtml: Option<string>): (doc: string)
    ensures |doc| == |DocumentHead| + |EditorMarkup(innerHtml)| + |DocumentTail|
    ensures doc[..|DocumentHead|] == DocumentHead && doc[|doc| - |DocumentTail|..] == DocumentTail
    ensures doc[|DocumentHead|..|doc| - |DocumentTail|] == EditorMarkup(innerHtml)
  {
    DocumentHead + EditorMarkup(innerHtml) + DocumentTail
  }

  function DownloadDoc(innerHtml: Option<string>): (f: DownloadFile)
    ensures f.name == FileName && f.mimeType == MimeType
  {
    DownloadFile(FileName, MimeType, DocumentHtml(innerHtml))
  }

  /** The body markup of a downloaded document, if the text has the skeleton around it. */
  function BodyOf(doc: string): (body: Option<string>)
    ensures body.Some? ==> doc == DocumentHead + body.value + DocumentTail
  {
    if |doc| >= |DocumentHead| + |DocumentTail|
       && doc[..|DocumentHead|] == DocumentHead
       && doc[|doc| - |DocumentTail|..] == DocumentTail
    then
      var body := doc[|DocumentHead|..|doc| - |DocumentTail|];
      assert doc == doc[..|DocumentHead|] + body + doc[|doc| - |DocumentTail|..];
      Some(body)
    else None
  }

  /** The saved file holds exactly the editor's markup, byte for byte, between the skeleton's head and tail. */
  lemma DownloadRoundTrip(innerHtml: Option<string>)
    ensures BodyOf(DownloadDoc(innerHtml).contents) == Some(EditorMarkup(innerHtml))
  {
    var body := EditorMarkup(innerHtml);
    var doc := DocumentHead + body + DocumentTail;
    assert doc[..|DocumentHead|] == DocumentHead;
    assert doc[|doc| - |DocumentTail|..] == DocumentTail;
    assert doc[|DocumentHead|..|doc| - |DocumentTail|] == body;
  }

  /** Different editor markup gives different files. */
  lemma DownloadInjective(a: Option<string>, b: Option<string>)
    requires EditorMarkup(a) != EditorMarkup(b)
    ensures DownloadDoc(a) != DownloadDoc(b)
  {
    DownloadRoundTrip(a);
    DownloadRoundTrip(b);
  }
}
