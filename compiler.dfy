/**
 * The compile pipeline: the three editor buffers become one preview document.
 * The style buffer is wrapped in a style element, the markup is inlined as it
 * is, the script buffer is wrapped in a script element, and the line break that
 * `writeln` appends closes the document. Nothing is parsed or escaped.
 */
module Compiler {
  import opened Wrappers

  const StyleOpen: string := "<style>"
  const StyleClose: string := "</style>"
  const ScriptOpen: string := "<script>"
  const ScriptClose: string := "</script>"
  /** `writeln` ends what it writes with one line break. */
  const LineEnd: string := "\n"

  /** Number of characters the template adds around the three buffers. */
  const TemplateLength: nat := 33

  /** The contents of the markup, style and script editors. */
  datatype Buffers = Buffers(html: string, css: string, js: string)

  /** The document `compiler` writes into the preview frame. */
  function Document(html: string, css: string, js: string): (doc: string)
    ensures |doc| == |html| + |css| + |js| + TemplateLength
    ensures doc[..|StyleOpen|] == StyleOpen
    ensures doc[|doc| - |ScriptClose + LineEnd|..] == ScriptClose + LineEnd
  {
    StyleOpen + css + StyleClose + html + ScriptOpen + js + ScriptClose + LineEnd
  }

  /**
   * Reads a preview document back into its three buffers, given the lengths of
   * the style and markup buffers; None when the document is not of the
   * template's shape for those lengths.
   */
  function Parts(doc: string, cssLen: nat, htmlLen: nat): (r: Option<Buffers>)
    ensures r.Some? ==> |r.value.css| == cssLen && |r.value.html| == htmlLen
    ensures r.Some? ==> |doc| == |r.value.html| + |r.value.css| + |r.value.js| + TemplateLength
  {
    var styleEnd := |StyleOpen| + cssLen;
    var htmlStart := styleEnd + |StyleClose|;
    var htmlEnd := htmlStart + htmlLen;
    var scriptStart := htmlEnd + |ScriptOpen|;
    var tail := |ScriptClose + LineEnd|;
    if |doc| < scriptStart + tail then None
    else if doc[..|StyleOpen|] == StyleOpen && doc[styleEnd..htmlStart] == StyleClose
         && doc[htmlEnd..scriptStart] == ScriptOpen && doc[|doc| - tail..] == ScriptClose + LineEnd
    then Some(Buffers(doc[htmlStart..htmlEnd], doc[|StyleOpen|..styleEnd], doc[scriptStart..|doc| - tail]))
    else None
  }

  /** Every document can be read back into the buffers it was compiled from. */
  lemma PartsOfDocument(html: string, css: string, js: string)
    ensures Parts(Document(html, css, js), |css|, |html|) == Some(Buffers(html, css, js))
  {
    var doc := Document(html, css, js);
    var styleEnd := |StyleOpen| + |css|;
    var htmlStart := styleEnd + |StyleClose|;
    var htmlEnd := htmlStart + |html|;
    var scriptStart := htmlEnd + |ScriptOpen|;
    assert doc[|StyleOpen|..styleEnd] == css;
    assert doc[styleEnd..htmlStart] == StyleClose;
    assert doc[htmlStart..htmlEnd] == html;
    assert doc[htmlEnd..scriptStart] == ScriptOpen;
    assert doc[scriptStart..|doc| - |ScriptClose + LineEnd|] == js;
  }

  /** Whatever Parts reads back compiles to exactly the document it was read from. */
  lemma DocumentOfParts(doc: string, cssLen: nat, htmlLen: nat)
    requires Parts(doc, cssLen, htmlLen).Some?
    ensures var b := Parts(doc, cssLen, htmlLen).value; Document(b.html, b.css, b.js) == doc
  {
    var styleEnd := |StyleOpen| + cssLen;
    var htmlStart := styleEnd + |StyleClose|;
    var htmlEnd := htmlStart + htmlLen;
    var scriptStart := htmlEnd + |ScriptOpen|;
    var tail := |doc| - |ScriptClose + LineEnd|;
    var b := Parts(doc, cssLen, htmlLen).value;
    // the document is rebuilt prefix by prefix, one piece of the template at a time
    assert doc[..styleEnd] == StyleOpen + b.css;
    assert doc[..htmlStart] == doc[..styleEnd] + StyleClose;
    assert doc[..htmlEnd] == doc[..htmlStart] + b.html;
    assert doc[..scriptStart] == doc[..htmlEnd] + ScriptOpen;
    assert doc[..tail] == doc[..scriptStart] + b.js;
    assert doc == doc[..tail] + ScriptClose + LineEnd;
  }

  /** The example document: style, then markup, then script, and the final line break. */
  lemma SampleDocument()
    ensures Document("<p>hi</p>", "p{color:red}", "console.log(1)")
         == "<style>p{color:red}</style><p>hi</p><script>console.log(1)</script>\n"
  {
    assert "<style>" + "p{color:red}" == "<style>p{color:red}";
    assert "<style>p{color:red}" + "</style>" == "<style>p{color:red}</style>";
    assert "<style>p{color:red}</style>" + "<p>hi</p>" == "<style>p{color:red}</style><p>hi</p>";
    assert "<style>p{color:red}</style><p>hi</p>" + "<script>" == "<style>p{color:red}</style><p>hi</p><script>";
    assert "<style>p{color:red}</style><p>hi</p><script>" + "console.log(1)"
        == "<style>p{color:red}</style><p>hi</p><script>console.log(1)";
    assert "<style>p{color:red}</style><p>hi</p><script>console.log(1)" + "</script>"
        == "<style>p{color:red}</style><p>hi</p><script>console.log(1)</script>";
  }

  /**
   * Since the script buffer is not escaped, a `</script>` inside it ends the
   * script element early: two different sets of buffers compile to the same
   * document, so without the buffer lengths the document does not determine them.
   */
  lemma ScriptCloseNotEscaped()
    ensures Buffers("p", "", "a</script><script>b") != Buffers("p<script>a</script>", "", "b")
    ensures Document("p", "", "a</script><script>b") == Document("p<script>a</script>", "", "b")
  {
  }
}
