// The Word document as the generator sees it: an append-only body of
// headings, paragraphs (sequences of runs), tables (rows of cells, each cell a
// block sequence of its own) and page breaks. Formatting the generator applies
// through the word-processing library is carried as opaque tags, in the order
// the generator sets them.
module Document {

  datatype Rgb = Rgb(r: int, g: int, b: int)

  const White := Rgb(255, 255, 255)

  /** The two greys the generator uses for secondary text and placeholders. */
  const DarkGrey := Rgb(100, 100, 100)
  const Grey := Rgb(128, 128, 128)

  datatype Align = AlignLeft | AlignCenter | AlignRight

  /** Character formatting set on a run. */
  datatype RunTag = Bold | Italic | SmallCaps | SizePt(pt: int) | Color(rgb: Rgb)

  /**
   * A run. `Text("", [])` is also what an `add_run()` whose picture was then
   * rejected leaves behind: a run with no text and no formatting.
   */
  datatype Run =
    | Text(text: string, tags: seq<RunTag>)
    | Picture(image: seq<bv8>, heightCm: real)
    | PageNumberField

  const BareRun := Text("", [])

  /** Paragraph formatting assignments, in the order they are made. */
  datatype ParaTag =
    | Aligned(a: Align)
    | FirstLineIndentCm(cm: real)
    | LeftIndentCm(cm: real)
    | SpaceAfterPt(pt: int)
    | SpaceBeforePt(pt: int)
    | RightDotTabCm(cm: real)

  /** A first-line indent of zero, set on the generated paragraphs that must not inherit the body indent. */
  const NoIndent := FirstLineIndentCm(0.0)

  /** Table settings the library manages itself (alignment, autofit, column widths). */
  datatype TableTag =
    | TableAlign(a: Align)
    | NoAutofit
    | TableWidthCm(cm: real)
    | ColumnWidthCm(col: int, cm: real)

  datatype Side = Top | LeftSide | Bottom | RightSide | InsideH | InsideV

  /** One border element of a `tblBorders` group. */
  datatype Border = NilBorder(side: Side) | SingleBorder(side: Side, size: string, color: string)

  /** Children of a `tblPr` element: border groups, and properties abstracted by name. */
  datatype TblPrChild = TblBorders(borders: seq<Border>) | OtherProperty(name: string)

  /** Children of a `tbl` element that the border edits look at. */
  datatype TblChild = TblPr(props: seq<TblPrChild>) | OtherTblChild(name: string)

  datatype Block =
    | Heading(level: nat, text: string, fmt: seq<ParaTag>)
    | Paragraph(fmt: seq<ParaTag>, runs: seq<Run>)
    | Table(settings: seq<TableTag>, xml: seq<TblChild>, rows: seq<seq<Cell>>)
    | PageBreak

  /** A table cell: the `shd` fills appended to its properties, and its content. */
  datatype Cell = Cell(shading: seq<string>, blocks: seq<Block>)

  /** The paragraph every new cell starts with. */
  const EmptyParagraph := Paragraph([], [])

  /** The formatting `add_centered_paragraph(doc, n)` sets: centred, no indent, n pt after, 0 before. */
  function CenteredFormat(spaceAfter: int): seq<ParaTag>
  {
    [Aligned(AlignCenter), NoIndent, LeftIndentCm(0.0), SpaceAfterPt(spaceAfter), SpaceBeforePt(0)]
  }

  /** `doc.add_paragraph()` with the formatting of `add_centered_paragraph(doc, n)`. */
  function CenteredParagraph(spaceAfter: int, runs: seq<Run>): Block
  {
    Paragraph(CenteredFormat(spaceAfter), runs)
  }

  /**
   * The formatting `add_cell_paragraph(cell, n)` sets (no indent, n pt after),
   * followed by what the caller sets on the paragraph afterwards.
   */
  function CellFormat(spaceAfter: int, extra: seq<ParaTag>): seq<ParaTag>
  {
    [NoIndent, LeftIndentCm(0.0), SpaceAfterPt(spaceAfter)] + extra
  }

  /** `cell.add_paragraph()` with the formatting of `add_cell_paragraph(cell, n)`. */
  function CellParagraph(spaceAfter: int, extra: seq<ParaTag>, runs: seq<Run>): Block
  {
    Paragraph(CellFormat(spaceAfter, extra), runs)
  }

  /** A body (of the document, a header, a footer) that only ever grows at the end. */
  class Container {
    var blocks: seq<Block>

    constructor ()
      ensures blocks == []
    {
      blocks := [];
    }

    method Add(b: Block)
      modifies this
      ensures blocks == old(blocks) + [b]
    {
      blocks := blocks + [b];
    }

    method AddAll(bs: seq<Block>)
      modifies this
      ensures blocks == old(blocks) + bs
    {
      blocks := blocks + bs;
    }
  }
}
