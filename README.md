# Live code playground session, in Dafny

This project models the core of a browser code playground (`app.js`). The page
has three editors: markup, style and script. Compiling joins their contents
into one document and writes it into a preview frame. The page also keeps a
dark/light theme in browser storage, switches between four panels (three editors
and the preview), and exports the three buffers to a paginated PDF.

Modules:

- `Compiler` (`compiler.dfy`): the preview document as a function of the three
  buffers. `Parts` is its inverse given two buffer lengths, and two lemmas tie
  the pair together. A counterexample lemma shows that a `</script>` inside the
  script buffer is not escaped.
- `Theme` (`theme.dfy`): the initial theme, the toggle, the editor theme and
  the two icon displays, as functions with lemmas about them.
- `Panels` (`panels.dfy`): the button/panel flags after a switch, and the
  resize request a switch issues.
- `Export` (`export.dfy`): `downloadCode` as a method that moves a vertical
  cursor step by step. It returns the drawn texts with their page and position.
- `Playground` (`playground.dfy`): the class `Session` holds the page's
  mutable state. That state is the buffers, storage (a map), the current theme,
  the `data-theme` attribute, the editor themes, the icon displays, and the
  button and panel arrays. It also keeps a log of resize requests and the
  preview document. The handlers are methods that update this state in place.
  `Valid()` says the editors and icons show the current theme, and the buttons
  and panels both show the last switch.

Choices that follow the code:

- A stored theme is any string, not only `"dark"` or `"light"`. A stored
  `"blue"` is kept and treated as not dark.
- The document ends with the line break that `writeln` appends.
- The export headers are `--- HTML ---`, `--- CSS ---` and `--- JavaScript ---`.
- The page-break test runs on the cursor at the end of a section body, before
  the gap is added. A test run on the cursor after the gap would give a
  different layout when a body ends within 10 of the threshold. For example,
  a 37-line HTML body ends at 245, and the code puts the CSS header at 255 on
  the first page.

## Model

| member | source | states |
|---|---|---|
| Compiler.Document | app.js:95-100 | the document has the template's length, starts with `<style>` and ends with `</script>` plus a line break |
| Compiler.Parts | app.js:96-100 | reading a document back with given style/markup lengths yields buffers of those lengths whose sizes add up to the document's |
| Compiler.PartsOfDocument | app.js:96-100 | every compiled document reads back into exactly the style, markup and script it was built from, in that order, unescaped |
| Compiler.DocumentOfParts | app.js:96-100 | whatever is read back compiles to exactly the same document, so the template is the only content besides the buffers |
| Compiler.SampleDocument | app.js:96-100 | markup `<p>hi</p>`, style `p{color:red}`, script `console.log(1)` compile to `<style>p{color:red}</style><p>hi</p><script>console.log(1)</script>` and a line break |
| Compiler.ScriptCloseNotEscaped | app.js:99 | two different buffer triples compile to the same document, because a `</script>` in the script buffer is copied as it is |
| Theme.InitialTheme | app.js:104 | the initial theme is the stored value when it is present and non-empty, and `"dark"` otherwise; it is never empty |
| Theme.Toggled | app.js:123 | the toggle always changes the theme; the result is `"light"` iff the theme was `"dark"`, and `"dark"` otherwise |
| Theme.EditorTheme | app.js:108 | editors get the dark editor theme iff the theme is `"dark"`, and the light one otherwise |
| Theme.SunDisplay | app.js:114 | the sun icon is shown iff the theme is `"dark"` |
| Theme.MoonDisplay | app.js:115 | the moon icon is shown iff the theme is not `"dark"` |
| Theme.ExactlyOneIcon | app.js:114-115 | exactly one of the two icons is shown, and each display is `block` or `none` |
| Theme.ToggleTwice | app.js:122-127 | two toggles give back the theme iff it was `"dark"` or `"light"`; any other stored value becomes `"light"` |
| Theme.ToggledIsDarkOrLight | app.js:122-127 | after one or more clicks the theme is `"dark"` or `"light"`, and it depends only on whether the count is odd or even |
| Panels.ExactlyOneSelected | app.js:133-139 | after a switch to an index in range exactly one flag is set, the one at that index; after an out-of-range switch none is |
| Panels.Resized | app.js:141-143 | a switch sends at most one resize request, to the editor on the panel switched to, and only for indices 0 to 2 |
| Export.DownloadCode | app.js:159-214 | the texts are the title (y 20), the timestamp (y 30), then the HTML, CSS and JavaScript headers each followed by its wrapped buffer, in reading order. The HTML header is at y 50 and its body at 60. Without a page break, each later header sits 10 below the end of the previous body (lines × 5); after a break it sits at 20. Each later header lies within [20, 260], and each body is 10 below its header. A page is added exactly when a section ends below 250. There are at most three pages, and the file is `code_expert_export.pdf` |
| Playground.Session.constructor | app.js:104-105 | page load keeps the buffers and storage, sets the initial theme from storage, applies it, and selects panel 0 with one resize of the markup editor. It covers lines 104-105, 119-120 and 157 |
| Playground.Session.UpdateEditorThemes | app.js:107-116 | all three editors and both icons reflect the current theme |
| Playground.Session.ToggleTheme | app.js:122-127 | the theme becomes the toggled one, storage key `"theme"` holds it, and the editors and icons follow it |
| Playground.Session.SwitchPanel | app.js:132-144 | button k is active and panel k displayed iff k is the index; the resize log grows by exactly the request for that index |
| Playground.Session.Compile | app.js:88-102 | the preview is replaced by the document of the current buffers, whatever it held before; only the preview changes |
| Playground.Session.RunEdit | app.js:146-149 | a switch to the index, then the preview holds the document of the buffers |
| Playground.Session.KeyDown | app.js:151-155 | Ctrl+Enter selects panel 3 with no resize and compiles; any other key changes nothing |
| Playground.Session.ShortcutTwice | app.js:151-155 | a second Ctrl+Enter without edits leaves the same preview; with four panels only the preview panel is displayed |
| Playground.OneActivePanel | app.js:133-139 | after an in-range switch, exactly one button is active and exactly one panel is displayed, at the same index |

## Left out

- Editor construction, modes, options and default sample text (app.js:11-86) belong to a third-party editor widget. The buffers' initial text is a constructor parameter. `setTheme` and `resize` appear only as recorded effects (`editorThemes`, `resizes`).
- Edits to the buffers come from the editor widget's own change handling. The model has no edit operation; the three buffers are separate fields that only the constructor sets.
- DOM access is modelled as fields: element lookups, class toggling, `style.display`, `setAttribute` and the frame's `open`/`writeln`/`close`. A panel's display is a boolean, true for `block`.
- Browser storage is a map from keys to strings. Storage failures are not modelled.
- The click handlers of the navigation buttons live in the page's markup. That markup is not part of this model; `RunEdit` stands for them.
- Event-listener registration is not modelled beyond `KeyDown` and `ToggleTheme` as the handlers' bodies.
- `splitTextToSize` is the renderer's line wrapping and is taken as the function parameter `wrap`. The time string from `new Date().toLocaleString()` is the parameter `stamp`.
- Font, size and colour calls, `save`, the `jsPDF` lookup and `async` are left out. Text drawn past the bottom edge of a page is not modelled: positions are recorded, not clipped.
- Export.DownloadCode: does not say where on the page the body's last line falls. A long body is drawn from its start position without a page break, as in the code.
