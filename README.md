# md2doc: a verified model of the editor core

md2doc is a Markdown-to-Word editor. The Markdown text is on the left and an editable,
styled preview is on the right. A sidebar edits the fonts, sizes and panel colours. The
preview can be downloaded as a `.doc` file. The editor comes in two variants:

- a standalone page (`App.tsx`);
- a component embedded in a host page (`markdown_to_word/frontend/src/App.tsx`). The
  host passes the text and the configuration in, and the component sends its state back.

This project models the logic of that core and proves properties of it:

- **Format painter** (`FormatPainter`, painter.dfy). It captures nine computed-style
  properties from the selection anchor. A single click toggles the painter, and a double
  click locks it. A mouse-up applies the pending style to a non-collapsed selection,
  either by wrapping the range in a styled span or, when wrapping fails, by inserting an
  HTML fragment built from the captured record's camelCase keys. After applying the
  style, an unlocked painter clears itself. The mouse-up listener is modelled too: it is
  re-attached to the editor element only when the painter state changes, and new HTML
  replaces that element.
- **List markers** (`ListMarkers`, lists.dfy). It finds the nearest `UL`/`OL` above the
  selection anchor, stopping at the editor root. It sets the list's `data-marker`
  attribute and `list-style-type` from the toolbar selectors. The selector change
  handlers restyle with the value the selectors had *before* the change. This follows
  the code: the update made by the state setter is not yet visible inside the same
  handler.
- **Download** (`Download`, download.dfy). It builds the file `document.doc` of type
  `application/msword`, which holds the editor markup inside a fixed HTML skeleton.
- **Sidebar** (`Sidebar`, sidebar.dfy). The drag handle updates the width only while a
  press is active and only for pointer positions in [280, 500]. Positions outside that
  range are ignored, not clamped to the nearest bound. The window listeners that hear
  moves and releases follow the press only at the next render of the sidebar, and the
  model keeps track of whether they are attached. The form handlers replace
  exactly one configuration field, and the font-size inputs go through
  `parseInt(…, 10) || 0`.
- **Root components** (`EmbeddedApp`, `StandaloneApp`, `MarkdownRender`, `Stylesheet`).
  The HTML is recomputed with the Markdown parser whenever the text changes, and only
  when the parser is loaded. The style sheet is generated from the configuration. In the
  embedded variant, incoming props overwrite the local state, and a debounced send-back
  fires only when the state differs from the props. The standalone variant has defaults
  and an initial state.
- Shared support: `Text` models integer formatting, `parseInt`, join and split, and
  substring occurrence. `EditorTypes` models the configuration record.

**Stateful parts.** Each stateful part is a pure step function plus a class with the
same fields. Each class method's postcondition ties its new state to the step function:
`Painter`, `ListToolbar`, `ResizeHandle`, and `App` in each root-component module. The
lemmas are stated over the step functions and over runs of event sequences.

**Inputs instead of the browser.** The browser and the host are reduced to inputs:

- `getComputedStyle` is a function from property names to values;
- the selection is absent, collapsed, or a range with its text;
- `surroundContents` either succeeds or fails;
- the anchor is its chain of ancestor elements;
- `window.marked.parse` is an optional, otherwise unspecified function;
- a host re-render carries the text, plus the configuration only when the host passed a
  new configuration object. The config effect compares object identity, while the text
  effect compares strings.

`JSON.stringify` equality of two configurations is modelled as structural equality of
the `Config` datatype, since both sides have the same shape and key order. The style
sheet lookups take the first matching rule and declaration, which is what the sheet
text declares in that place; they do not compute the cascade's winner. Each
variant's generated CSS is a function of the configuration, so equal configurations give
equal CSS by construction. The sheets are also proved not to depend on the colours.

## Model

| member | source | states |
|---|---|---|
| FormatPainter.Capture | markdown_to_word/frontend/src/components/WordPreview.tsx:114-125 | the captured record has the nine CSSOM keys in literal order, each with the computed style's value for that key |
| FormatPainter.Entries | markdown_to_word/frontend/src/components/WordPreview.tsx:136-140 | `Object.entries` of the captured record: nine pairs, the i-th keyed by the i-th camelCase key of the literal |
| FormatPainter.StyleText | markdown_to_word/frontend/src/components/WordPreview.tsx:140 | the `k:v` texts of the entries joined by `;`; its inverse is stated by `StyleTextRoundTrip` |
| FormatPainter.StyleTextRoundTrip | markdown_to_word/frontend/src/components/WordPreview.tsx:140 | splitting the style text at `;` and each part at its first `:` gives the declarations back, when keys have no `:` or `;` and values no `;` |
| FormatPainter.FallbackFragment | markdown_to_word/frontend/src/components/WordPreview.tsx:140-142 | the fragment the code inserts: a span whose `style` attribute is the style text of the camelCase entries, around the selected text |
| FormatPainter.InlineStyleFragment | markdown_to_word/frontend/src/components/WordPreview.tsx:140-142 | the corrected fragment: the same span with each declaration under its CSS property name and the attribute text escaped |
| FormatPainter.EscapeAttribute | markdown_to_word/frontend/src/components/WordPreview.tsx:140 | the escaped attribute text contains no `"`, so it cannot end a double-quoted attribute |
| FormatPainter.UnescapeEscape | markdown_to_word/frontend/src/components/WordPreview.tsx:140 | replacing the character references of the escaped text gives the text back, for every text |
| FormatPainter.UpToQuote | markdown_to_word/frontend/src/components/WordPreview.tsx:140 | the part before the first `"`, where a double-quoted attribute value ends, contains no `"` |
| FormatPainter.StyleAttribute | markdown_to_word/frontend/src/components/WordPreview.tsx:140 | the attribute value is found exactly when the html starts with `<span style="` |
| FormatPainter.SpanAttribute | markdown_to_word/frontend/src/components/WordPreview.tsx:140 | a style text without `"` is the whole `style` attribute value of its span, for every span text |
| FormatPainter.SpanStyle | markdown_to_word/frontend/src/components/WordPreview.tsx:135-136 | the wrapping span's inline style has exactly the nine captured keys, each with its captured value |
| FormatPainter.StyleSpan | markdown_to_word/frontend/src/components/WordPreview.tsx:136 | the `forEach` loop that assigns each entry to the fresh span's style yields exactly `SpanStyle` |
| FormatPainter.Captured | markdown_to_word/frontend/src/components/WordPreview.tsx:108-127 | with an anchor element the pending style becomes its captured style; with no range or no element it is unchanged |
| FormatPainter.OnClick | markdown_to_word/frontend/src/components/WordPreview.tsx:212 | a click clears an active painter, or captures when none is active; either way it ends unlocked |
| FormatPainter.OnDoubleClick | markdown_to_word/frontend/src/components/WordPreview.tsx:213 | a double click captures and ends locked |
| FormatPainter.OnMouseUp | markdown_to_word/frontend/src/components/WordPreview.tsx:129-145 | the document is left unchanged iff no style is pending, there is no range, or the range is collapsed (then the state is unchanged); otherwise it wraps iff `surroundContents` succeeds, with the span style, and else inserts `<span style="…">` around the selected text whose attribute is the `;`-join of the camelCase `k:v` entries; the style is cleared iff the painter is unlocked, and the lock is kept |
| FormatPainter.OnMouseUpCorrected | markdown_to_word/frontend/src/components/WordPreview.tsx:129-145 | corrected: the same new state and the same effect, except that an inserted fragment carries the declarations under their CSS names, with the attribute text escaped |
| FormatPainter.LockedPainterRepeats | markdown_to_word/frontend/src/components/WordPreview.tsx:129-145 | a locked painter keeps its state across any series of mouse-ups, and every one of them applies the same pending style, wrapped or as the as-written fragment |
| FormatPainter.UnlockedPainterAppliesOnce | markdown_to_word/frontend/src/components/WordPreview.tsx:144 | an unlocked painter changes the document at most once in any series of mouse-ups, stays unlocked, and is empty after applying; with nothing pending nothing changes |
| FormatPainter.DoubleClickGesture | markdown_to_word/frontend/src/components/WordPreview.tsx:212-213 | the browser's click, click, dblclick sequence ends with the anchor's style pending and locked, whatever the state before it |
| FormatPainter.FallbackDropsStyles | markdown_to_word/frontend/src/components/WordPreview.tsx:140-142 | as written, the fallback's style text parses back into the nine camelCase entries, and of those names only `color` is, in any letter case, among the nine properties' CSS names |
| FormatPainter.InlineStyleCarriesAll | markdown_to_word/frontend/src/components/WordPreview.tsx:140-142 | corrected: the fragment's `style` attribute, read up to its closing quote and unescaped, is the style text, whatever the values' quotes and the span text; that text parses back into nine entries under the kebab-case CSS names, each one recognised, each with the captured value |
| FormatPainter.FallbackQuoteCutsAttribute | markdown_to_word/frontend/src/components/WordPreview.tsx:140-142 | as written, a `"` in the captured font family (as in `"Times New Roman", serif`) ends the fallback's `style` attribute early: the attribute value read back differs from the style text |
| Text.JoinContains | markdown_to_word/frontend/src/components/WordPreview.tsx:140 | every character of a part is a character of the join |
| FormatPainter.PreviewStep | markdown_to_word/frontend/src/components/WordPreview.tsx:147-155 | one event of the preview (with the buttons of lines 212-213 and the editor key of line 224): a painter button updates the painter and re-attaches the listener when the effect's dependencies changed; a mouse-up runs `OnMouseUp` only while the listener is on the current editor element; new HTML leaves it on the removed one |
| FormatPainter.ListeningMouseUp | markdown_to_word/frontend/src/components/WordPreview.tsx:147-151 | while the listener is attached, a mouse-up on the editor has exactly the handler's effect and new state, and the listener stays |
| FormatPainter.PainterChangeReattaches | markdown_to_word/frontend/src/components/WordPreview.tsx:147-155 | a capture by a double click, or any click that changes the painter state, attaches the listener to the current editor element |
| FormatPainter.DetachedListenerIgnoresMouseUps | markdown_to_word/frontend/src/components/WordPreview.tsx:147-155 | once new HTML (the editor key of line 224) has replaced the editor element, any series of mouse-ups and further replacements changes neither the painter nor the document |
| FormatPainter.PendingStyleLostAfterHtmlChange | markdown_to_word/frontend/src/components/WordPreview.tsx:147-155 | as written (the editor key of line 224): lock a captured style, let new HTML arrive, release the mouse over a selection: nothing is applied while the style stays pending and locked |
| FormatPainter.CorrectedPreviewStep | markdown_to_word/frontend/src/components/WordPreview.tsx:147-155 | corrected: new HTML keeps the listener attached, so an attached listener stays attached and a mouse-up has the handler's effect |
| FormatPainter.CorrectedAlwaysListening | markdown_to_word/frontend/src/components/WordPreview.tsx:147-155 | corrected: from an attached listener on, after any events it is still attached, and every mouse-up has the effect of `OnMouseUp` on the painter state reached just before it |
| FormatPainter.CorrectedAppliesAfterHtmlChange | markdown_to_word/frontend/src/components/WordPreview.tsx:147-155 | corrected: the lock, new HTML, and mouse-up sequence wraps the selection in the locked style |
| FormatPainter.Painter.constructor | markdown_to_word/frontend/src/components/WordPreview.tsx:72-73 | the painter starts with no pending style, unlocked, and with the listener attached by the mount effect |
| FormatPainter.Painter.CapturePainter | markdown_to_word/frontend/src/components/WordPreview.tsx:108-127 | the pending style becomes `Captured` of the anchor; the lock and the listener are untouched |
| FormatPainter.Painter.Click | markdown_to_word/frontend/src/components/WordPreview.tsx:212 | the new state is `PreviewStep` of a painter click |
| FormatPainter.Painter.DoubleClick | markdown_to_word/frontend/src/components/WordPreview.tsx:213 | the new state is `PreviewStep` of a painter double click |
| FormatPainter.Painter.MouseUp | markdown_to_word/frontend/src/components/WordPreview.tsx:129-155 | the new state and the document effect are those of `PreviewStep` of a mouse-up |
| FormatPainter.Painter.ReplaceHtml | markdown_to_word/frontend/src/components/WordPreview.tsx:224 | the new state is `PreviewStep` of a remount by new HTML: the listener is no longer on the editor |
| ListMarkers.NearestFrom | markdown_to_word/frontend/src/components/WordPreview.tsx:161-166 | the index found is the first one at or above the start whose element has the tag, with no root element on the way; when nothing is found, every element with the tag lies at or beyond the root |
| ListMarkers.GetNearestList | markdown_to_word/frontend/src/components/WordPreview.tsx:157-167 | the upward walk returns the nearest element with the tag below the editor root, or null; it is null when there is no range |
| ListMarkers.BulletMarking | markdown_to_word/frontend/src/components/WordPreview.tsx:173-179 | diamond gives the `data-marker` value `diamond` and `list-style-type: none`; every other style removes the attribute and becomes the list-style-type |
| ListMarkers.MarkBulletList | markdown_to_word/frontend/src/components/WordPreview.tsx:173-179 | diamond sets `data-marker="diamond"` and `none`; any other style removes the attribute and sets that style |
| ListMarkers.ApplyUnorderedList | markdown_to_word/frontend/src/components/WordPreview.tsx:169-180 | the nearest `UL` gets the bullet marking; no other element of the anchor chain changes |
| ListMarkers.ApplyOrderedList | markdown_to_word/frontend/src/components/WordPreview.tsx:182-187 | the nearest `OL` gets the number style and keeps its attributes; nothing else in the chain changes |
| ListMarkers.UpdateCurrentListStyle | markdown_to_word/frontend/src/components/WordPreview.tsx:189-204 | the nearest `UL` gets the bullet marking and the nearest `OL` the number style; nothing else in the chain changes |
| ListMarkers.ListToolbar.constructor | markdown_to_word/frontend/src/components/WordPreview.tsx:74-75 | the selectors start at `disc` and `decimal` |
| ListMarkers.ListToolbar.BulletStyleChange | markdown_to_word/frontend/src/components/WordPreview.tsx:217 | the bullet selector takes the new value, and the lists are restyled with the selectors' previous values |
| ListMarkers.ListToolbar.NumberStyleChange | markdown_to_word/frontend/src/components/WordPreview.tsx:220 | the number selector takes the new value, and the lists are restyled with the selectors' previous values |
| ListMarkers.ListToolbar.ApplyBullet | markdown_to_word/frontend/src/components/WordPreview.tsx:218 | applies the current bullet selector value to the nearest `UL` |
| ListMarkers.ListToolbar.ApplyNumber | markdown_to_word/frontend/src/components/WordPreview.tsx:221 | applies the current number selector value to the nearest `OL` |
| ListMarkers.BulletStyleRendered | markdown_to_word/frontend/src/components/WordPreview.tsx:173-179 | whatever the list's previous attributes, marking it with a style makes it show that style's marker (the diamond glyph of the component's `data-marker` rule, or the native one) |
| ListMarkers.BulletMarkingInjective | markdown_to_word/frontend/src/components/WordPreview.tsx:173-179 | distinct bullet styles give distinct markings and distinct markers |
| ListMarkers.StaleRestyleShowsPrevious | markdown_to_word/frontend/src/components/WordPreview.tsx:217 | after the selector moves to a different style, the list shows the previous style's marker, not the chosen one |
| ListMarkers.DiamondThenDisc | markdown_to_word/frontend/src/components/WordPreview.tsx:173-179 | switching from diamond to disc removes the marker attribute and shows the native disc |
| Download.EditorMarkup | markdown_to_word/frontend/src/components/WordPreview.tsx:78 | the content is the editor's inner HTML, or empty when there is no editor |
| Download.DocumentHtml | markdown_to_word/frontend/src/components/WordPreview.tsx:79 | the saved text starts with the skeleton's head, ends with its tail, and has exactly the editor markup between them |
| Download.DownloadDoc | markdown_to_word/frontend/src/components/WordPreview.tsx:79-84 | the file is named `document.doc` and typed `application/msword` |
| Download.BodyOf | markdown_to_word/frontend/src/components/WordPreview.tsx:79 | a body extracted from a document is the part between the skeleton's head and tail |
| Download.DownloadRoundTrip | markdown_to_word/frontend/src/components/WordPreview.tsx:78-79 | extracting the body of the downloaded document returns exactly the editor markup |
| Download.DownloadInjective | markdown_to_word/frontend/src/components/WordPreview.tsx:78-79 | different editor markup gives different files |
| Sidebar.Mounted | markdown_to_word/frontend/src/components/Sidebar.tsx:18-53 | after mount the handle is idle and no window listener is attached |
| Sidebar.Step | markdown_to_word/frontend/src/components/Sidebar.tsx:20-53 | a press starts resizing and attaches nothing; a release is heard, and stops resizing, only while the listeners are attached; a move is heard only then and, during a press, sets the width to the pointer position iff it lies in [280, 500], otherwise the width is kept; a render attaches the listeners iff resizing |
| Sidebar.RunKeepsRange | markdown_to_word/frontend/src/components/Sidebar.tsx:31-38 | starting from a width in range, any event sequence keeps the width in range |
| Sidebar.RunWidthOrigin | markdown_to_word/frontend/src/components/Sidebar.tsx:31-38 | after any event sequence the width is either the starting width or in range |
| Sidebar.MovesWithoutPressIgnored | markdown_to_word/frontend/src/components/Sidebar.tsx:32 | pointer moves while not resizing change nothing |
| Sidebar.NoListenersNoResize | markdown_to_word/frontend/src/components/Sidebar.tsx:40-53 | without the listeners and without a render, no press, move or release changes the width, and a drag in progress stays in progress |
| Sidebar.UnheardReleaseKeepsDragging | markdown_to_word/frontend/src/components/Sidebar.tsx:20-53 | as written: after mount, a press and a release, then a render, then a pointer move in range sets the width, with resizing still on |
| Sidebar.CorrectedStep | markdown_to_word/frontend/src/components/Sidebar.tsx:20-53 | corrected: the listeners are attached exactly while resizing, and the width and drag flag move as in `Step` |
| Sidebar.CorrectedDragEndsAtRelease | markdown_to_word/frontend/src/components/Sidebar.tsx:20-53 | corrected: a press, a move in range and a release set the width to the pointer, and later moves without a press change nothing |
| Sidebar.ResizeHandle.constructor | markdown_to_word/frontend/src/components/Sidebar.tsx:18-53 | the handle starts as `Mounted` with the width passed in |
| Sidebar.ResizeHandle.MouseDown | markdown_to_word/frontend/src/components/Sidebar.tsx:20-24 | the new state is `Step` of a press |
| Sidebar.ResizeHandle.MouseUp | markdown_to_word/frontend/src/components/Sidebar.tsx:26-29 | the new state is `Step` of a release |
| Sidebar.ResizeHandle.MouseMove | markdown_to_word/frontend/src/components/Sidebar.tsx:31-38 | the new state is `Step` of a move |
| Sidebar.ResizeHandle.Render | markdown_to_word/frontend/src/components/Sidebar.tsx:40-53 | the new state is `Step` of a render |
| Sidebar.HandleConfigChange | markdown_to_word/frontend/src/components/Sidebar.tsx:56-64 | the edited field holds the new value and every other field is unchanged |
| Sidebar.HandleColorChange | markdown_to_word/frontend/src/components/Sidebar.tsx:66-74 | the panel's colour holds the new value; the fonts, sizes and other colour are unchanged |
| Sidebar.ColorChangeIsConfigChange | markdown_to_word/frontend/src/components/Sidebar.tsx:56-74 | a colour change is the generic field change on the panel's colour field |
| Sidebar.ConfigChangeUndo | markdown_to_word/frontend/src/components/Sidebar.tsx:56-64 | writing back a field's old value restores the configuration |
| Sidebar.FontSizeInput | markdown_to_word/frontend/src/components/Sidebar.tsx:128 | a size input stores `parseInt(input, 10) \|\| 0`: 0 for input with no leading number, `n` for the decimal text of `n`; other fields unchanged |
| Text.NatToString | App.tsx:82 | the decimal text of a natural number is non-empty, all digits, with no leading zero |
| Text.IntToString | App.tsx:82 | the decimal text of an integer is non-empty and starts with `-` iff the integer is negative |
| Text.ParseInt | markdown_to_word/frontend/src/components/Sidebar.tsx:128 | `parseInt(s, 10)` is NaN iff no digit follows the leading white space and optional sign |
| Text.ParseIntOrZero | markdown_to_word/frontend/src/components/Sidebar.tsx:128 | `\|\| 0` turns NaN into 0 and keeps any number |
| Text.ParseIntOfIntToString | markdown_to_word/frontend/src/components/Sidebar.tsx:128 | parsing the decimal text of any integer gives that integer back |
| Text.SplitJoin | markdown_to_word/frontend/src/components/WordPreview.tsx:140 | splitting a `;`-joined list of parts without `;` gives the parts back |
| EditorTypes.FieldsDetermineConfig | markdown_to_word/frontend/src/types.ts:2-17 | a configuration is determined by its eight leaf fields |
| Stylesheet.FirstDeclaredValue | markdown_to_word/frontend/src/App.tsx:67-129 | a declared value belongs to a rule with that selector, on a declaration of that property |
| Stylesheet.FirstDeclaredValueAt | markdown_to_word/frontend/src/App.tsx:67-129 | the first-match lookup finds the value of a declaration when no earlier rule has its selector and no earlier declaration of that rule has its property |
| Stylesheet.DeclarationRendered | markdown_to_word/frontend/src/App.tsx:67-129 | every declaration of every rule appears as its own indented line in the rendered sheet |
| Stylesheet.AllDeclarationsRendered | markdown_to_word/frontend/src/App.tsx:67-129 | the same, for all declarations of all rules at once |
| Stylesheet.RuleRendered | markdown_to_word/frontend/src/App.tsx:67-129 | every rule appears whole in the rendered sheet |
| MarkdownRender.RecomputeHtml | markdown_to_word/frontend/src/App.tsx:46-49 | with a parser the HTML is the parse of the text; without one it keeps its previous value |
| MarkdownRender.SetText | markdown_to_word/frontend/src/App.tsx:46-51 | setting the text re-renders the HTML only when the text changed |
| EmbeddedApp.Mount | markdown_to_word/frontend/src/App.tsx:19-23 | after mount, the text and config equal the props, the HTML is the parse of the text or empty, the sidebar is open at width 260, and nothing is to be sent |
| EmbeddedApp.ShouldSend | markdown_to_word/frontend/src/App.tsx:39 | the guard of the send-back: the text or the configuration differs from the last props; `Mount` and `Outgoing` state its consequences |
| EmbeddedApp.Outgoing | markdown_to_word/frontend/src/App.tsx:31-41 | a value is sent iff the text or the config differs from the props, and it is exactly the current text and config |
| EmbeddedApp.Step | markdown_to_word/frontend/src/App.tsx:46-64 | a new text prop overwrites the local text, and a new config object overwrites the local config; an unchanged text prop or the same config object keeps the local value; a local text or config edit changes only that value (and the HTML through the parser); the sidebar events change only their field; no other event changes the props' copies or the sidebar |
| EmbeddedApp.HtmlTracksText | markdown_to_word/frontend/src/App.tsx:46-51 | with a parser, once the HTML is the parse of the text it stays so after any events |
| EmbeddedApp.MountedHtmlTracksText | markdown_to_word/frontend/src/App.tsx:46-51 | from mount on, with a parser, the HTML is always the parse of the current text |
| EmbeddedApp.HtmlWithoutParser | markdown_to_word/frontend/src/App.tsx:46-49 | without a parser no event changes the HTML |
| EmbeddedApp.MountedHtmlWithoutParser | markdown_to_word/frontend/src/App.tsx:21 | without a parser the HTML remains empty |
| EmbeddedApp.HostRenderSettles | markdown_to_word/frontend/src/App.tsx:39 | after the host passes a new config object, a send is pending iff the text prop did not change and a local text edit differs from it |
| EmbeddedApp.EchoEndsExchange | markdown_to_word/frontend/src/App.tsx:32-39 | when the host echoes back what was sent, nothing more is sent |
| EmbeddedApp.SameConfigObjectKeepsLocalEdits | markdown_to_word/frontend/src/App.tsx:62-64 | a host render with the same config object leaves a local config edit pending |
| EmbeddedApp.InitialWidthBelowRange | markdown_to_word/frontend/src/App.tsx:23 | the initial width 260 is below the sidebar's range, and after any drag it is either still 260 or in range |
| EmbeddedApp.StyleRules | markdown_to_word/frontend/src/App.tsx:67-129 | the sheet's rules in template order: the base rule, then the h1, h2 and h3 rules, then the rules that do not depend on the configuration |
| EmbeddedApp.GeneratedCss | markdown_to_word/frontend/src/App.tsx:67-129 | every declaration of every rule of `StyleRules` is a line of the generated sheet |
| EmbeddedApp.CssIgnoresColors | markdown_to_word/frontend/src/App.tsx:67-129 | the generated sheet does not depend on the panel colours |
| EmbeddedApp.CssFontFamily | markdown_to_word/frontend/src/App.tsx:70 | the preview's font family is the English font, `, `, then the Chinese font, and that line is in the sheet |
| EmbeddedApp.CssFontSizes | markdown_to_word/frontend/src/App.tsx:71-90 | the body, h1, h2 and h3 sizes are the configured numbers followed by `px` |
| EmbeddedApp.App.constructor | markdown_to_word/frontend/src/App.tsx:19-23 | the component state after mount is `Mount` |
| EmbeddedApp.App.EditText | markdown_to_word/frontend/src/App.tsx:148 | the new state is `Step` of a text edit |
| EmbeddedApp.App.EditConfig | markdown_to_word/frontend/src/App.tsx:139 | the new state is `Step` of a config edit |
| EmbeddedApp.App.HostRender | markdown_to_word/frontend/src/App.tsx:58-64 | the new state is `Step` of a host render |
| EmbeddedApp.App.SetSidebarOpen | markdown_to_word/frontend/src/App.tsx:137 | the new state is `Step` of opening or closing the sidebar |
| EmbeddedApp.App.SetSidebarWidth | markdown_to_word/frontend/src/App.tsx:141 | the new state is `Step` of a width change. The width is whatever the caller passes; in the app it comes from the resize handle (`Sidebar.Step` of a mouse move, within `Sidebar.InRange` by `Sidebar.RunKeepsRange`), and nothing in the model ties the field to a `ResizeHandle` |
| EmbeddedApp.App.DebounceFires | markdown_to_word/frontend/src/App.tsx:37-41 | the timer sends the current text and config iff either differs from the props |
| StandaloneApp.DefaultConfig | App.tsx:55-70 | the default config has `Times New Roman, serif` with the Microsoft YaHei list, sizes 32/24/20/16, and both colours `#ffffff` |
| StandaloneApp.Initial | App.tsx:50-53 | the first render has the sample document, empty HTML, the default config, and an open sidebar whose width is in range |
| StandaloneApp.Mount | App.tsx:72-76 | after mount, the HTML is the parse of the sample document, or empty without a parser |
| StandaloneApp.Step | App.tsx:49-76 | a text edit changes only the text (and the HTML through the parser), a config edit changes only the config, and the sidebar events change only their field |
| StandaloneApp.HtmlTracksText | App.tsx:72-76 | with a parser, once the HTML is the parse of the text it stays so after any events |
| StandaloneApp.MountedHtmlTracksText | App.tsx:72-76 | from mount on, with a parser, the HTML is always the parse of the current text |
| StandaloneApp.HtmlWithoutParser | App.tsx:72-76 | without a parser no event changes the HTML |
| StandaloneApp.MountedHtmlWithoutParser | App.tsx:51 | without a parser the HTML remains empty |
| StandaloneApp.InitialWidthInRange | App.tsx:53 | the initial width 320 is in range, and stays in range after any drag |
| StandaloneApp.StyleRules | App.tsx:78-139 | the sheet's rules in template order: the base rule, then the h1, h2 and h3 rules, then the rules that do not depend on the configuration |
| StandaloneApp.GeneratedCss | App.tsx:78-139 | every declaration of every rule of `StyleRules` is a line of the generated sheet |
| StandaloneApp.CssIgnoresColors | App.tsx:78-139 | the generated sheet does not depend on the panel colours |
| StandaloneApp.CssFontFamily | App.tsx:81 | the preview's font family is the English font, `, `, then the Chinese font, and that line is in the sheet |
| StandaloneApp.CssFontSizes | App.tsx:82-100 | the body, h1, h2 and h3 sizes are the configured numbers followed by `px` |
| StandaloneApp.DefaultSheet | App.tsx:55-100 | with the default fonts and sizes, the sheet declares the default family list, `16px` body text, and `32px`, `24px` and `20px` headings |
| StandaloneApp.App.constructor | App.tsx:50-76 | the component state after mount is `Mount` |
| StandaloneApp.App.EditText | App.tsx:158 | the new state is `Step` of a text edit |
| StandaloneApp.App.EditConfig | App.tsx:149 | the new state is `Step` of a config edit |
| StandaloneApp.App.SetSidebarOpen | App.tsx:147 | the new state is `Step` of opening or closing the sidebar |
| StandaloneApp.App.SetSidebarWidth | App.tsx:151 | the new state is `Step` of a width change. The width is whatever the caller passes; in the app it comes from the resize handle (`Sidebar.Step` of a mouse move, within `Sidebar.InRange` by `Sidebar.RunKeepsRange`), and nothing in the model ties the field to a `ResizeHandle` |

## Left out

- Toolbar formatting buttons and selectors that only call `document.execCommand` (markdown_to_word/frontend/src/components/WordPreview.tsx:10-40, 64-65): these are browser editing commands with no logic of the component's own.
- `copyContent` (WordPreview.tsx:91-106): clipboard I/O and its fallback through the selection.
- The Blob, object URL and anchor click of `downloadDoc` (WordPreview.tsx:80-88): I/O. The model produces the file's name, type and contents.
- `getComputedStyle`, the `Selection`/`Range` objects, `surroundContents` and `range.toString()`: these are browser objects, so they are inputs.
- The native `insertUnorderedList` and `insertOrderedList` commands (WordPreview.tsx:170, 183): the list handlers take the anchor chain as it is after the command.
- Which updates re-render the sidebar (Sidebar.tsx:40-53): a render is an event of its own, so the model does not tie it to the root component's updates. Sidebar.Step's "a release stops the drag" holds only while the listeners are attached, which needs a render after the press.
- What the remount on new HTML does to the editor's content (WordPreview.tsx:224): the preview's own edits are replaced by the new HTML. The painter model keeps only the listener's whereabouts.
- The cursor style set on the document body while resizing (Sidebar.tsx:23, 28): presentation only.
- The sidebar's open and close buttons and the rest of the JSX: the root components have `SetSidebarOpen` and `SetSidebarWidth` events, and rendering is left out.
- Streamlit's lifecycle calls (`setComponentReady`, `setFrameHeight`, markdown_to_word/frontend/src/App.tsx:26-29, 50, 53-55) and the 500 ms `setTimeout`/`clearTimeout` debounce: timer and host plumbing. `DebounceFires` models the timer firing after a quiet period, with the guard of line 39.
- The Markdown parser itself (`window.marked`): it is an unspecified function, present or absent.
- MarkdownInput.tsx, the root-level components/WordPreview.tsx of the standalone variant (a context file; the core preview is markdown_to_word/frontend/src/components/WordPreview.tsx, modelled above), markdown_to_word/__init__.py and app.py are not part of this model.
- FormatPainter.InlineStyleCarriesAll: the captured values must be free of `;` (`PlainValues`). A `;` inside a value, such as a quoted font name containing one, would split a declaration, and the model does not follow the CSS parser's quoting rules there.
- FormatPainter.InlineStyleFragment and FormatPainter.FallbackFragment: the selected text goes into the fragment verbatim, without HTML escaping, as in the code (only the corrected fragment's `style` attribute is escaped). The model does not state what the browser makes of markup characters in it.
- Text.IntToString: sizes are integers. JavaScript's number formatting of fractions, of `-0` and of magnitudes of 10^21 and above (exponent notation) is not modelled. A host-provided configuration with fractional sizes is outside the model.
- Text.ParseInt: models `parseInt` with radix 10 on unbounded integers. The loss of precision of JavaScript numbers above 2^53 is not modelled.
- Text.IsJsWhitespace: the white-space set is the ECMAScript one written out. It is not checked against a Unicode database.

## Findings

| source | as written | input that shows it | evidently intended | confidence | as-written member | corrected member |
|---|---|---|---|---|---|---|
| markdown_to_word/frontend/src/components/WordPreview.tsx:140-142 | when `surroundContents` throws, the fallback builds the span's `style` attribute from the captured record's camelCase CSSOM keys (`fontWeight:700;fontStyle:italic;…`) | any pending style applied to a selection that `surroundContents` cannot wrap (a range that partly selects an element): of the nine declarations only `color` names a CSS property, so bold, italic, underline, background, font and size are lost | the kebab-case CSS property names (`font-weight`, `font-style`, `text-decoration-line`, …) so that all nine captured styles carry over, as they do in the wrapping branch (values free of `;`) | not executed | FormatPainter.FallbackDropsStyles | FormatPainter.InlineStyleCarriesAll |
| markdown_to_word/frontend/src/components/WordPreview.tsx:140-142 | the fallback writes the style text into `style="…"` without escaping | a pending style whose computed font family is quoted, as browsers report names with spaces (`"Times New Roman", serif`) and as the standalone app's default Chinese font list is written (App.tsx:58): the attribute ends at the first quote, so font-family is cut and font-size, line-height and letter-spacing are lost | the attribute text escaped (`"` as `&quot;`, `&` as `&amp;`), so that the value read back up to its closing quote unescapes to the whole style text | not executed | FormatPainter.FallbackQuoteCutsAttribute | FormatPainter.InlineStyleCarriesAll |
| markdown_to_word/frontend/src/components/Sidebar.tsx:20-53 | the window `mousemove`/`mouseup` listeners are added by an effect that depends on the ref `isResizing.current`; the press writes the ref without causing a render | after mount, press the handle, drag and release with no re-render in between: the drag does nothing and the release is not heard; after the next render (any keystroke in the editor re-renders the sidebar), moving the pointer with no button held resizes the sidebar | the listeners are attached for the whole drag (the drag flag kept in state, so that the press re-renders), and the release ends it | not executed | Sidebar.UnheardReleaseKeepsDragging | Sidebar.CorrectedDragEndsAtRelease |
| markdown_to_word/frontend/src/components/WordPreview.tsx:147-155 | the mouse-up listener is attached to the editor element by an effect keyed on the painter state only, while the element is keyed by the rendered HTML (line 224) | lock a captured style, edit the Markdown so that the HTML changes, then select text in the preview and release the mouse: nothing is applied, though the painter button still shows the style locked | the listener follows the current editor element, so a pending style is applied at the next mouse-up | not executed | FormatPainter.PendingStyleLostAfterHtmlChange | FormatPainter.CorrectedAppliesAfterHtmlChange |

The state machines follow the code as written: `OnMouseUp`, `PreviewStep` and the
`Painter` class insert `FallbackFragment` and keep the listener where the code leaves
it, and `Sidebar.Step` and `ResizeHandle` hear moves and releases only through attached
listeners. The corrected behaviours are separate members: `OnMouseUpCorrected` with
`InlineStyleFragment`, `CorrectedPreviewStep` with `CorrectedAlwaysListening`, and
`Sidebar.CorrectedStep`.
