/** The slice of an HTML document the scraper looks at, with the DOM query
    library abstracted away: table cells as inline text with their `<br>`
    elements, a listing page as its entries text, header cells, data rows and
    "next" links, and a member detail page as its table rows. */
module Dom {
  import opened JsRuntime

  /** One piece of a cell's content: a run of text or a `<br>` element. */
  datatype Inline = Text(text: string) | LineBreak

  /** A `td` or `th` element: its content and the `href` of each anchor inside
      it in document order (`None` for an anchor without one). */
  datatype Cell = Cell(content: seq<Inline>, anchors: seq<Option<string>>)

  /** `.text()` of untouched content: a `<br>` contributes nothing. */
  function RawText(content: seq<Inline>): (r: string)
    ensures (forall i :: 0 <= i < |content| ==> content[i].LineBreak? || content[i].text == "") ==> r == ""
  {
    if content == [] then ""
    else RawText(content[..|content| - 1]) + (match content[|content| - 1] case Text(t) => t case LineBreak => "")
  }

  /** `.find('br').replaceWith(sep).end().text()`: every `<br>` reads as `sep`. */
  function TextWithBreaks(content: seq<Inline>, sep: string): string {
    if content == [] then ""
    else TextWithBreaks(content[..|content| - 1], sep) + (match content[|content| - 1] case Text(t) => t case LineBreak => sep)
  }

  /** `.text()` of a selection of several cells: their texts, concatenated. */
  function CellsRawText(cells: seq<Cell>): string {
    if cells == [] then "" else CellsRawText(cells[..|cells| - 1]) + RawText(cells[|cells| - 1].content)
  }

  function CellsText(cells: seq<Cell>, sep: string): string {
    if cells == [] then "" else CellsText(cells[..|cells| - 1], sep) + TextWithBreaks(cells[|cells| - 1].content, sep)
  }

  /** One directory listing page, as fetched. */
  datatype ListingPage = ListingPage(
    entriesText: string,         // text of the "number of entries" element
    headerCells: seq<Cell>,      // `th` cells of the `.table-list-header` row
    rows: seq<seq<Cell>>,        // `td` cells of every other row of the directory table
    nextHrefs: seq<Option<string>>  // `href` of each `.nextLinkWrap a` element
  )

  /** One `tr` of a member's detail page: its `th` cells and its `td` cells,
      each a direct child of the row (no nested tables). */
  datatype DetailRow = DetailRow(heads: seq<Cell>, cells: seq<Cell>)

  /** parseColumnNames: each header cell's text with `<br>` read as a space, trimmed. */
  function ColumnNames(headerCells: seq<Cell>): (keys: seq<string>)
    ensures |keys| == |headerCells|
  {
    seq(|headerCells|, i requires 0 <= i < |headerCells| => Trim(TextWithBreaks(headerCells[i].content, " ")))
  }
}
