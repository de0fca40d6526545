/**
 * The paginated export: the title, a timestamp and one labelled section per
 * buffer, placed by a vertical cursor that starts a new page when a section
 * ends below the bottom threshold.
 */
module Export {

  /** One call to the renderer's text operation: lines drawn at (x, y) on a page. */
  datatype Text = Text(page: nat, x: int, y: int, lines: seq<string>)

  /** The finished document: its texts in drawing order, its page count and its file name. */
  datatype PdfDoc = PdfDoc(texts: seq<Text>, pages: nat, fileName: string)

  const Title: string := "Code Editor Export"
  const StampPrefix: string := "Generated on: "
  const HtmlHeader: string := "--- HTML ---"
  const CssHeader: string := "--- CSS ---"
  const JsHeader: string := "--- JavaScript ---"
  const FileName: string := "code_expert_export.pdf"

  /** Left margin of every text. */
  const Margin: int := 20
  /** Where the cursor goes on a new page. */
  const Top: int := 20
  /** A cursor below this starts a new page. */
  const Bottom: int := 250
  /** Height of one wrapped line. */
  const LineHeight: int := 5
  /** Space after a section, and between a header and its body. */
  const Gap: int := 10

  /** Text `k` is drawn on the same page as text `k - 1` and further down, or at the top of the next page. */
  ghost predicate InReadingOrder(texts: seq<Text>)
  {
    forall k :: 0 < k < |texts| ==>
      (texts[k].page == texts[k - 1].page && texts[k - 1].y < texts[k].y)
      || (texts[k].page == texts[k - 1].page + 1 && texts[k].y == Top)
  }

  /**
   * `downloadCode`: `stamp` is the current time as the page formats it and
   * `wrap` is the renderer's line wrapping at the export's width.
   */
  method DownloadCode(html: string, css: string, js: string, stamp: string, wrap: string -> seq<string>)
    returns (doc: PdfDoc)
    ensures |doc.texts| == 8 && doc.fileName == FileName
    ensures doc.texts[0].lines == [Title] && doc.texts[1].lines == [StampPrefix + stamp]
    ensures doc.texts[2].lines == [HtmlHeader] && doc.texts[3].lines == wrap(html)
    ensures doc.texts[4].lines == [CssHeader] && doc.texts[5].lines == wrap(css)
    ensures doc.texts[6].lines == [JsHeader] && doc.texts[7].lines == wrap(js)
    ensures forall t :: t in doc.texts ==> t.x == Margin && 1 <= t.page <= doc.pages
    ensures InReadingOrder(doc.texts)
    ensures doc.texts[0].page == 1 && doc.texts[3].page == 1
    ensures doc.texts[0].y == 20 && doc.texts[1].y == 30 && doc.texts[2].y == 50 && doc.texts[3].y == 60
    // without a page break a header comes one gap below the end of the previous body
    ensures doc.texts[4].page == 1 ==> doc.texts[4].y == 60 + |wrap(html)| * LineHeight + Gap
    ensures doc.texts[6].page == doc.texts[5].page
        ==> doc.texts[6].y == doc.texts[5].y + |wrap(css)| * LineHeight + Gap
    // the CSS and JavaScript headers land between the top margin and just past the bottom threshold
    ensures Top <= doc.texts[4].y <= Bottom + Gap && Top <= doc.texts[6].y <= Bottom + Gap
    // a body is drawn one gap below its header
    ensures doc.texts[5].y == doc.texts[4].y + Gap && doc.texts[7].y == doc.texts[6].y + Gap
    // a page is added after the HTML body exactly when it ends below the threshold
    ensures doc.texts[4].page == 2 <==> 60 + |wrap(html)| * LineHeight > Bottom
    ensures doc.texts[6].page == doc.texts[5].page + 1
        <==> doc.texts[5].y + |wrap(css)| * LineHeight > Bottom
    ensures doc.pages == doc.texts[7].page && doc.pages <= 3
  {
    var page := 1;
    var texts := [Text(page, Margin, 20, [Title])];
    texts := texts + [Text(page, Margin, 30, [StampPrefix + stamp])];

    texts := texts + [Text(page, Margin, 50, [HtmlHeader])];
    var htmlLines := wrap(html);
    texts := texts + [Text(page, Margin, 60, htmlLines)];

    var currentY := 60 + |htmlLines| * LineHeight;
    if currentY > Bottom { page := page + 1; currentY := Top; } else { currentY := currentY + Gap; }

    texts := texts + [Text(page, Margin, currentY, [CssHeader])];
    var cssLines := wrap(css);
    texts := texts + [Text(page, Margin, currentY + Gap, cssLines)];

    currentY := currentY + Gap + |cssLines| * LineHeight;
    if currentY > Bottom { page := page + 1; currentY := Top; } else { currentY := currentY + Gap; }

    texts := texts + [Text(page, Margin, currentY, [JsHeader])];
    var jsLines := wrap(js);
    texts := texts + [Text(page, Margin, currentY + Gap, jsLines)];

    doc := PdfDoc(texts, page, FileName);
  }
}
