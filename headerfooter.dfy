// The page header and footer of the report's section: `setup_header_with_logos`
// and `setup_footer_with_page_number`. Each removes the paragraphs already in
// its part (tables stay), then appends one borderless three-cell table.
module HeaderFooter {
  import opened Wrappers
  import opened Document
  import opened Schemas
  import opened Images
  import opened TableXml

  /** Every block but a table is a `w:p` element; a page break is a paragraph holding a break. */
  predicate IsParagraph(b: Block)
  {
    !b.Table?
  }

  /** The blocks left once every top-level paragraph has been removed. */
  function WithoutParagraphs(bs: seq<Block>): (r: seq<Block>)
    ensures |r| <= |bs|
    ensures forall i :: 0 <= i < |r| ==> !IsParagraph(r[i])
  {
    if bs == [] then []
    else WithoutParagraphs(bs[..|bs| - 1]) + (if IsParagraph(bs[|bs| - 1]) then [] else [bs[|bs| - 1]])
  }

  /** The settings shared by both tables: 16 cm wide, centred, fixed columns 5, 6 and 5 cm. */
  const ThreeColumnSettings: seq<TableTag> :=
    [TableWidthCm(16.0), TableAlign(AlignCenter), NoAutofit, ColumnWidthCm(0, 5.0), ColumnWidthCm(1, 6.0), ColumnWidthCm(2, 5.0)]

  function ThreeCellTable(left: seq<Run>, centre: seq<Run>, right: seq<Run>): Block
  {
    Table(ThreeColumnSettings, BordersRemoved(NewTableXml),
      [[Cell([], [Paragraph([Aligned(AlignLeft), NoIndent], left)]),
        Cell([], [Paragraph([Aligned(AlignCenter), NoIndent], centre)]),
        Cell([], [Paragraph([Aligned(AlignRight), NoIndent], right)])]])
  }

  /** The header table: the school logo left, nothing centre, the company logo right, both 1.2 cm high. */
  function HeaderTable(logos: LogosConfig, im: Imaging): Block
  {
    ThreeCellTable(OptionalPictureRuns(im, logos.logoEcole, 1.2), [], OptionalPictureRuns(im, logos.logoEntreprise, 1.2))
  }

  function CompanyRuns(d: ReportData): seq<Run>
  {
    if d.entrepriseNom != "" then [Text(d.entrepriseNom, [SizePt(9), Color(DarkGrey)])] else []
  }

  /** "- ", the PAGE field, " -". */
  function PageNumberRuns(d: ReportData): seq<Run>
  {
    if d.page.showPageNumber then [Text("- ", [SizePt(9)]), PageNumberField, Text(" -", [SizePt(9)])] else []
  }

  function StudentRuns(d: ReportData): seq<Run>
  {
    if d.page.showStudentName && d.nom != "" then [Text(d.prenom + " " + d.nom, [SizePt(9), Color(DarkGrey)])] else []
  }

  /** The footer table: company name left, page number centre, student name right. */
  function FooterTable(d: ReportData): Block
  {
    ThreeCellTable(CompanyRuns(d), PageNumberRuns(d), StudentRuns(d))
  }

  /** A header or footer part after one setup call appending `table`. */
  function AfterSetup(part: seq<Block>, table: Block): seq<Block>
  {
    WithoutParagraphs(part) + [table]
  }

  /** The page setup of a document section, and its header and footer parts. */
  class Section {
    var pageWidthCm: real
    var pageHeightCm: real
    var margins: (real, real, real, real)
    var differentFirstPage: bool
    var header: seq<Block>
    var footer: seq<Block>

    /** A new document's section: default page, one empty paragraph in each part. */
    constructor ()
      ensures header == [EmptyParagraph] && footer == [EmptyParagraph] && !differentFirstPage
    {
      pageWidthCm, pageHeightCm := 21.59, 27.94;
      margins := (2.54, 2.54, 3.175, 3.175);
      differentFirstPage := false;
      header, footer := [EmptyParagraph], [EmptyParagraph];
    }

    /** `for para in part.paragraphs: remove it`, one element at a time. */
    static method RemoveParagraphs(part: seq<Block>) returns (kept: seq<Block>)
      ensures kept == WithoutParagraphs(part)
    {
      kept := [];
      var i := 0;
      while i < |part|
        invariant 0 <= i <= |part|
        invariant kept == WithoutParagraphs(part[..i])
      {
        assert part[..i + 1][..i] == part[..i];
        if !IsParagraph(part[i]) {
          kept := kept + [part[i]];
        }
        i := i + 1;
      }
      assert part[..i] == part;
    }

    method SetupHeaderWithLogos(d: ReportData, im: Imaging)
      modifies this
      ensures header == AfterSetup(old(header), HeaderTable(d.logos, im))
      ensures footer == old(footer) && differentFirstPage == old(differentFirstPage)
      ensures pageWidthCm == old(pageWidthCm) && pageHeightCm == old(pageHeightCm) && margins == old(margins)
    {
      var kept := RemoveParagraphs(header);
      var tbl := new TableElement(NewTableXml);
      tbl.RemoveTableBorders();
      var left := OptionalPictureRuns(im, d.logos.logoEcole, 1.2);
      var right := OptionalPictureRuns(im, d.logos.logoEntreprise, 1.2);
      header := kept + [Table(ThreeColumnSettings, tbl.children,
        [[Cell([], [Paragraph([Aligned(AlignLeft), NoIndent], left)]),
          Cell([], [Paragraph([Aligned(AlignCenter), NoIndent], [])]),
          Cell([], [Paragraph([Aligned(AlignRight), NoIndent], right)])]])];
    }

    method SetupFooterWithPageNumber(d: ReportData)
      modifies this
      ensures footer == AfterSetup(old(footer), FooterTable(d))
      ensures header == old(header) && differentFirstPage == old(differentFirstPage)
      ensures pageWidthCm == old(pageWidthCm) && pageHeightCm == old(pageHeightCm) && margins == old(margins)
    {
      var kept := RemoveParagraphs(footer);
      var tbl := new TableElement(NewTableXml);
      tbl.RemoveTableBorders();
      var left := [];
      if d.entrepriseNom != "" {
        left := [Text(d.entrepriseNom, [SizePt(9), Color(DarkGrey)])];
      }
      var centre := [];
      if d.page.showPageNumber {
        centre := [Text("- ", [SizePt(9)])];
        centre := centre + [PageNumberField];
        centre := centre + [Text(" -", [SizePt(9)])];
      }
      var right := [];
      if d.page.showStudentName && d.nom != "" {
        right := [Text(d.prenom + " " + d.nom, [SizePt(9), Color(DarkGrey)])];
      }
      assert left == CompanyRuns(d) && centre == PageNumberRuns(d) && right == StudentRuns(d);
      footer := kept + [Table(ThreeColumnSettings, tbl.children,
        [[Cell([], [Paragraph([Aligned(AlignLeft), NoIndent], left)]),
          Cell([], [Paragraph([Aligned(AlignCenter), NoIndent], centre)]),
          Cell([], [Paragraph([Aligned(AlignRight), NoIndent], right)])]])];
    }
  }

  // ---------------------------------------------------------------------
  // Properties
  // ---------------------------------------------------------------------

  /** A part without paragraphs is left as it is. */
  lemma {:induction false} WithoutParagraphsKeepsTables(bs: seq<Block>)
    requires forall i :: 0 <= i < |bs| ==> !IsParagraph(bs[i])
    ensures WithoutParagraphs(bs) == bs
    decreases |bs|
  {
    if bs != [] {
      WithoutParagraphsKeepsTables(bs[..|bs| - 1]);
    }
  }

  /** Removing the paragraphs twice is removing them once. */
  lemma {:induction false} WithoutParagraphsIdempotent(bs: seq<Block>)
    ensures WithoutParagraphs(WithoutParagraphs(bs)) == WithoutParagraphs(bs)
  {
    WithoutParagraphsKeepsTables(WithoutParagraphs(bs));
  }

  lemma {:induction false} WithoutParagraphsAppend(a: seq<Block>, b: seq<Block>)
    ensures WithoutParagraphs(a + b) == WithoutParagraphs(a) + WithoutParagraphs(b)
    decreases |b|
  {
    if b == [] {
      assert a + b == a;
    } else {
      assert (a + b)[..|a + b| - 1] == a + b[..|b| - 1];
      WithoutParagraphsAppend(a, b[..|b| - 1]);
    }
  }

  /**
   * Only paragraphs are removed, so a second setup keeps the first table: the
   * part then holds two tables, one per call, after the tables that were there.
   */
  lemma {:induction false} SecondSetupKeepsFirstTable(part: seq<Block>, t1: Block, t2: Block)
    requires t1.Table? && t2.Table?
    ensures AfterSetup(AfterSetup(part, t1), t2) == WithoutParagraphs(part) + [t1, t2]
  {
    var kept := WithoutParagraphs(part);
    WithoutParagraphsAppend(kept, [t1]);
    WithoutParagraphsIdempotent(part);
    assert WithoutParagraphs([t1]) == WithoutParagraphs([t1][..0]) + [t1];
    assert WithoutParagraphs(kept + [t1]) == kept + [t1];
    assert AfterSetup(part, t1) == kept + [t1];
  }

  /** A new section's header and footer each end up holding exactly the one table. */
  lemma {:induction false} FreshSectionSetup(t: Block)
    requires t.Table?
    ensures AfterSetup([EmptyParagraph], t) == [t]
  {
    assert WithoutParagraphs([EmptyParagraph]) == WithoutParagraphs([EmptyParagraph][..0]) + [];
  }

  /**
   * Each footer cell has text exactly when its switch allows it: the company
   * name when there is one, the page number group when it is enabled, the
   * student name when enabled and the surname is non-empty.
   */
  lemma {:induction false} FooterRunsConditional(d: ReportData)
    ensures var row := FooterTable(d).rows[0];
      (row[0].blocks[0].runs != [] <==> d.entrepriseNom != "")
      && (row[1].blocks[0].runs != [] <==> d.page.showPageNumber)
      && (PageNumberField in row[1].blocks[0].runs <==> d.page.showPageNumber)
      && (row[2].blocks[0].runs != [] <==> d.page.showStudentName && d.nom != "")
  {
  }

  /** Each header cell shows a logo only when that logo passes the presence test. */
  lemma {:induction false} HeaderLogosConditional(logos: LogosConfig, im: Imaging)
    ensures var row := HeaderTable(logos, im).rows[0];
      (!HasImage(logos.logoEcole) ==> row[0].blocks[0].runs == [])
      && row[1].blocks[0].runs == []
      && (!HasImage(logos.logoEntreprise) ==> row[2].blocks[0].runs == [])
  {
  }
}
