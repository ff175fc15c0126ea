// The three covers whose content is written into a table cell: elegant (a
// coloured stripe beside the content), academique (two nested frames in the
// heading colour) and luxe (two nested gold frames, with fixed colours). For
// each, the content cell is a function of the request and a method that fills
// it piece by piece; the cover method puts that cell into its table.
module FramedCovers {
  import opened Wrappers
  import opened Document
  import opened Schemas
  import opened Colors
  import opened Images
  import opened TableXml
  import opened Text
  import opened CoverParts
  import opened Covers

  /** The settings of a two-logo table added inside a cell: no autofit, two equal columns. */
  function InnerPairSettings(widthCm: real): seq<TableTag>
  {
    [NoAutofit, ColumnWidthCm(0, widthCm), ColumnWidthCm(1, widthCm)]
  }

  /** The first paragraph of a content cell, its indent cleared. */
  const ContentStart: Block := Paragraph([NoIndent], [])

  // ---------------------------------------------------------------------
  // elegant
  // ---------------------------------------------------------------------

  const ElegantSettings: seq<TableTag> := [TableAlign(AlignCenter), NoAutofit, ColumnWidthCm(0, 0.5), ColumnWidthCm(1, 15.5)]

  /** The content cell down to the central image: logos, title, subject, image. */
  function ElegantHeading(d: ReportData, im: Imaging, c: Rgb): seq<Block>
  {
    [ContentStart]
    + When(HasLogo(d.logos), InCell(LogoPair(InnerPairSettings(7.0), [NoIndent, Aligned(AlignLeft)], [NoIndent, Aligned(AlignRight)], im, d.logos, 2.0)))
    + [CellParagraph(25, [], [])]
    + [CellParagraph(4, [], [TitleRun(28, c)])]
    + When(d.sujetStage != "", [CellParagraph(12, [], [Text(d.sujetStage, [SizePt(14), Italic])])])
    + ImageBlocks(CellFormat(12, []), im, d.logos.imageCentrale, 3.0)
  }

  /** The rest of the content cell: student, school, company, dates and tutors. */
  function ElegantDetails(d: ReportData, debut: string, fin: string, c: Rgb): seq<Block>
  {
    [CellParagraph(18, [], [])]
    + [CellParagraph(4, [], [StudentRun(d)])]
    + [CellParagraph(4, [], [Text(FormationName(d), [SizePt(12)])])]
    + [CellParagraph(15, [], [Text(SchoolYear(d, "  |  "), [SizePt(12)])])]
    + [CellParagraph(4, [], [Text(CompanyName(d), [Bold, SizePt(14), Color(c)])])]
    + When(d.entrepriseVille != "", [CellParagraph(6, [], [Text(d.entrepriseVille, [SizePt(12)])])])
    + [CellParagraph(15, [], [Text(DatesText(debut, fin), [SizePt(12)])])]
    + [CellParagraph(4, [], [Text(CompanyTutorLine(d), [SizePt(12)])])]
    + When(d.tuteurAcademiqueNom != "", [CellParagraph(0, [], [Text(AcademicTutorLine(d), [SizePt(12)])])])
  }

  function ElegantContent(d: ReportData, debut: string, fin: string, im: Imaging, c: Rgb): seq<Block>
  {
    ElegantHeading(d, im, c) + ElegantDetails(d, debut, fin, c)
  }

  /** One table of two cells: the shaded stripe, then the content. */
  function ElegantCover(d: ReportData, debut: string, fin: string, im: Imaging, c: Rgb): seq<Block>
  {
    [Table(ElegantSettings, BordersRemoved(NewTableXml),
      [[Shaded(OneParagraphCell(EmptyParagraph), d.style.title1Color), Cell([], ElegantContent(d, debut, fin, im, c))]])]
  }

  method FillElegantContent(d: ReportData, debut: string, fin: string, im: Imaging, c: Rgb) returns (bs: seq<Block>)
    ensures bs == ElegantContent(d, debut, fin, im, c)
  {
    var logos: seq<Block> := [];
    if HasImage(d.logos.logoEcole) || HasImage(d.logos.logoEntreprise) {
      var t := LogoPairTable(InnerPairSettings(7.0), [NoIndent, Aligned(AlignLeft)], [NoIndent, Aligned(AlignRight)], im, d.logos, 2.0);
      logos := InCell(t);
    }
    var sujet := OptionalBlock(d.sujetStage != "", CellParagraph(12, [], [Text(d.sujetStage, [SizePt(14), Italic])]));
    var image := ImageParagraph(CellFormat(12, []), im, d.logos.imageCentrale, 3.0);
    var ville := OptionalBlock(d.entrepriseVille != "", CellParagraph(6, [], [Text(d.entrepriseVille, [SizePt(12)])]));
    var academic := OptionalBlock(d.tuteurAcademiqueNom != "", CellParagraph(0, [], [Text(AcademicTutorLine(d), [SizePt(12)])]));
    var heading := [ContentStart]
      + logos
      + [CellParagraph(25, [], [])]
      + [CellParagraph(4, [], [TitleRun(28, c)])]
      + sujet
      + image;
    assert heading == ElegantHeading(d, im, c);
    var details := [CellParagraph(18, [], [])]
      + [CellParagraph(4, [], [StudentRun(d)])]
      + [CellParagraph(4, [], [Text(FormationName(d), [SizePt(12)])])]
      + [CellParagraph(15, [], [Text(SchoolYear(d, "  |  "), [SizePt(12)])])]
      + [CellParagraph(4, [], [Text(CompanyName(d), [Bold, SizePt(14), Color(c)])])]
      + ville
      + [CellParagraph(15, [], [Text(DatesText(debut, fin), [SizePt(12)])])]
      + [CellParagraph(4, [], [Text(CompanyTutorLine(d), [SizePt(12)])])]
      + academic;
    assert details == ElegantDetails(d, debut, fin, c);
    bs := heading + details;
  }

  method GenerateCoverElegant(doc: Container, d: ReportData, debut: string, fin: string, duree: string, im: Imaging) returns (ok: bool)
    modifies doc
    ensures ok <==> Primary(d).Some?
    ensures ok ==> doc.blocks == old(doc.blocks) + ElegantCover(d, debut, fin, im, Primary(d).value)
    ensures !ok ==> doc.blocks == old(doc.blocks)
  {
    var primary := HexToRgb(d.style.title1Color);
    if primary.None? {
      return false;
    }
    var xml := BorderlessXml();
    var stripe := SetCellShading(OneParagraphCell(EmptyParagraph), LStrip(d.style.title1Color, '#'));
    var content := FillElegantContent(d, debut, fin, im, primary.value);
    var row := [stripe, Cell([], content)];
    doc.Add(Table(ElegantSettings, xml, [row]));
    return true;
  }

  // ---------------------------------------------------------------------
  // Nested frames (academique and luxe)
  // ---------------------------------------------------------------------

  const OuterFrameSettings: seq<TableTag> := [TableAlign(AlignCenter), NoAutofit, ColumnWidthCm(0, 16.0)]
  const InnerFrameSettings: seq<TableTag> := [TableAlign(AlignCenter), NoAutofit, ColumnWidthCm(0, 15.0)]

  /**
   * A framed table holding, after its first paragraph and a spacer, a second
   * framed table whose one cell is `content`.
   */
  function Frames(outerXml: seq<TblChild>, spacer: int, innerXml: seq<TblChild>, content: seq<Block>): seq<Block>
  {
    [Table(OuterFrameSettings, outerXml,
      [[Cell([], [EmptyParagraph, CellParagraph(spacer, [], [])] + InCell(Table(InnerFrameSettings, innerXml, [[Cell([], content)]])))]])]
  }

  /** Builds the two frames around a filled content cell, borders drawn in `colourHex`. */
  method PutInFrames(colourHex: string, outerSize: string, spacer: int, innerSize: string, content: seq<Block>) returns (bs: seq<Block>)
    ensures bs == Frames(BorderSet(NewTableXml, colourHex, outerSize), spacer, BorderSet(NewTableXml, colourHex, innerSize), content)
  {
    var outerXml := FramedXml(colourHex, outerSize);
    var innerXml := FramedXml(colourHex, innerSize);
    var inner := Table(InnerFrameSettings, innerXml, [[Cell([], content)]]);
    var outerCell := Cell([], [EmptyParagraph, CellParagraph(spacer, [], [])] + InCell(inner));
    bs := [Table(OuterFrameSettings, outerXml, [[outerCell]])];
  }

  // ---------------------------------------------------------------------
  // academique
  // ---------------------------------------------------------------------

  /** The academique content down to the central image. */
  function AcademiqueHeading(d: ReportData, im: Imaging, c: Rgb): seq<Block>
  {
    [ContentStart]
    + When(HasLogo(d.logos), InCell(LogoPair(InnerPairSettings(7.0), [NoIndent, Aligned(AlignCenter)], [NoIndent, Aligned(AlignCenter)], im, d.logos, 1.8)))
    + [CellParagraph(10, [], [])]
    + [CellParagraph(6, [Aligned(AlignCenter)], [Text(SchoolName(d), [Bold, SizePt(14), Color(c)])])]
    + [CellParagraph(15, [Aligned(AlignCenter)], [Text(FormationName(d), [SizePt(12)])])]
    + [CellParagraph(6, [Aligned(AlignCenter)], [TitleRun(28, c)])]
    + When(d.sujetStage != "", [CellParagraph(12, [Aligned(AlignCenter)], [Text(d.sujetStage, [SizePt(14), Italic])])])
    + ImageBlocks(CellFormat(15, [Aligned(AlignCenter)]), im, d.logos.imageCentrale, 3.0)
  }

  /** The rest of the academique content: presenter, company, dates, tutors and the school year. */
  function AcademiqueDetails(d: ReportData, debut: string, fin: string, c: Rgb): seq<Block>
  {
    [CellParagraph(10, [], [])]
    + [CellParagraph(4, [Aligned(AlignCenter)], [Text("Présenté par", [SizePt(10)])])]
    + [CellParagraph(8, [Aligned(AlignCenter)], [StudentRun(d)])]
    + [CellParagraph(4, [Aligned(AlignCenter)], [Text("Stage effectué chez " + CompanyName(d), [SizePt(12)])])]
    + [CellParagraph(15, [Aligned(AlignCenter)], [Text(DatesText(debut, fin), [SizePt(11)])])]
    + [CellParagraph(4, [Aligned(AlignCenter)], [Text(CompanyTutorLine(d), [SizePt(10)])])]
    + When(d.tuteurAcademiqueNom != "", [CellParagraph(4, [Aligned(AlignCenter)], [Text(AcademicTutorLine(d), [SizePt(10)])])])
    + [CellParagraph(10, [], [])]
    + [CellParagraph(6, [Aligned(AlignCenter)], [Text(Or(d.anneeScolaire, "[Année scolaire]"), [SizePt(12), Color(c)])])]
  }

  function AcademiqueContent(d: ReportData, debut: string, fin: string, im: Imaging, c: Rgb): seq<Block>
  {
    AcademiqueHeading(d, im, c) + AcademiqueDetails(d, debut, fin, c)
  }

  /** Frames of 24 and 12 eighths of a point, in the heading colour. */
  function AcademiqueCover(d: ReportData, debut: string, fin: string, im: Imaging, c: Rgb): seq<Block>
  {
    Frames(BorderSet(NewTableXml, d.style.title1Color, "24"), 4, BorderSet(NewTableXml, d.style.title1Color, "12"),
      AcademiqueContent(d, debut, fin, im, c))
  }

  method FillAcademiqueContent(d: ReportData, debut: string, fin: string, im: Imaging, c: Rgb) returns (bs: seq<Block>)
    ensures bs == AcademiqueContent(d, debut, fin, im, c)
  {
    var logos: seq<Block> := [];
    if HasImage(d.logos.logoEcole) || HasImage(d.logos.logoEntreprise) {
      var t := LogoPairTable(InnerPairSettings(7.0), [NoIndent, Aligned(AlignCenter)], [NoIndent, Aligned(AlignCenter)], im, d.logos, 1.8);
      logos := InCell(t);
    }
    var sujet := OptionalBlock(d.sujetStage != "", CellParagraph(12, [Aligned(AlignCenter)], [Text(d.sujetStage, [SizePt(14), Italic])]));
    var image := ImageParagraph(CellFormat(15, [Aligned(AlignCenter)]), im, d.logos.imageCentrale, 3.0);
    var heading := [ContentStart]
      + logos
      + [CellParagraph(10, [], [])]
      + [CellParagraph(6, [Aligned(AlignCenter)], [Text(SchoolName(d), [Bold, SizePt(14), Color(c)])])]
      + [CellParagraph(15, [Aligned(AlignCenter)], [Text(FormationName(d), [SizePt(12)])])]
      + [CellParagraph(6, [Aligned(AlignCenter)], [TitleRun(28, c)])]
      + sujet
      + image;
    assert heading == AcademiqueHeading(d, im, c);
    var academic := OptionalBlock(d.tuteurAcademiqueNom != "", CellParagraph(4, [Aligned(AlignCenter)], [Text(AcademicTutorLine(d), [SizePt(10)])]));
    var details := [CellParagraph(10, [], [])]
      + [CellParagraph(4, [Aligned(AlignCenter)], [Text("Présenté par", [SizePt(10)])])]
      + [CellParagraph(8, [Aligned(AlignCenter)], [StudentRun(d)])]
      + [CellParagraph(4, [Aligned(AlignCenter)], [Text("Stage effectué chez " + CompanyName(d), [SizePt(12)])])]
      + [CellParagraph(15, [Aligned(AlignCenter)], [Text(DatesText(debut, fin), [SizePt(11)])])]
      + [CellParagraph(4, [Aligned(AlignCenter)], [Text(CompanyTutorLine(d), [SizePt(10)])])]
      + academic
      + [CellParagraph(10, [], [])]
      + [CellParagraph(6, [Aligned(AlignCenter)], [Text(Or(d.anneeScolaire, "[Année scolaire]"), [SizePt(12), Color(c)])])];
    assert details == AcademiqueDetails(d, debut, fin, c);
    bs := heading + details;
  }

  method GenerateCoverAcademique(doc: Container, d: ReportData, debut: string, fin: string, duree: string, im: Imaging) returns (ok: bool)
    modifies doc
    ensures ok <==> Primary(d).Some?
    ensures ok ==> doc.blocks == old(doc.blocks) + AcademiqueCover(d, debut, fin, im, Primary(d).value)
    ensures !ok ==> doc.blocks == old(doc.blocks)
  {
    var primary := HexToRgb(d.style.title1Color);
    if primary.None? {
      return false;
    }
    var content := FillAcademiqueContent(d, debut, fin, im, primary.value);
    var bs := PutInFrames(d.style.title1Color, "24", 4, "12", content);
    doc.AddAll(bs);
    return true;
  }

  // ---------------------------------------------------------------------
  // luxe
  // ---------------------------------------------------------------------

  const Gold := Rgb(184, 134, 11)
  const GoldHex := "b8860b"

  /** The luxe content down to the central image. */
  function LuxeHeading(d: ReportData, im: Imaging): seq<Block>
  {
    [ContentStart]
    + When(HasLogo(d.logos), [CellParagraph(6, [], [])] + InCell(LogoPair(InnerPairSettings(7.0), [NoIndent, Aligned(AlignCenter)], [NoIndent, Aligned(AlignCenter)], im, d.logos, 1.5)))
    + [CellParagraph(10, [], [])]
    + [CellParagraph(4, [Aligned(AlignCenter)], [Text(SchoolName(d), [SizePt(11), Color(Gold), SmallCaps])])]
    + [CellParagraph(6, [Aligned(AlignCenter)], [Text("— ✦ —", [SizePt(10), Color(Gold)])])]
    + [CellParagraph(6, [Aligned(AlignCenter)], [Text("RAPPORT DE STAGE", [Bold, SizePt(26), Color(Rgb(50, 50, 50))])])]
    + When(d.sujetStage != "", [CellParagraph(8, [Aligned(AlignCenter)], [Text(d.sujetStage, [SizePt(13), Italic, Color(Rgb(80, 80, 80))])])])
    + ImageBlocks(CellFormat(10, [Aligned(AlignCenter)]), im, d.logos.imageCentrale, 2.5)
  }

  /** The rest of the luxe content: the gold rule, student, company, dates and year. */
  function LuxeDetails(d: ReportData, debut: string, fin: string): seq<Block>
  {
    [CellParagraph(10, [], [])]
    + [CellParagraph(8, [Aligned(AlignCenter)], [Text("───────────────────", [SizePt(10), Color(Gold)])])]
    + [CellParagraph(6, [Aligned(AlignCenter)], [StudentRun(d)])]
    + [CellParagraph(2, [Aligned(AlignCenter)], [Text(FormationName(d), [SizePt(11), Italic])])]
    + [CellParagraph(10, [], [])]
    + [CellParagraph(2, [Aligned(AlignCenter)], [Text(CompanyName(d), [SizePt(13), Color(Gold)])])]
    + [CellParagraph(4, [Aligned(AlignCenter)], [Text(debut + "  —  " + fin, [SizePt(10), Color(DarkGrey)])])]
    + [CellParagraph(8, [], [])]
    + [CellParagraph(6, [Aligned(AlignCenter)], [Text(Or(d.anneeScolaire, "[Année scolaire]"), [SizePt(10), Color(Gold), SmallCaps])])]
  }

  function LuxeContent(d: ReportData, debut: string, fin: string, im: Imaging): seq<Block>
  {
    LuxeHeading(d, im) + LuxeDetails(d, debut, fin)
  }

  /** Gold frames of 36 and 18 eighths of a point; nothing depends on the heading colour. */
  function LuxeCover(d: ReportData, debut: string, fin: string, im: Imaging): seq<Block>
  {
    Frames(BorderSet(NewTableXml, GoldHex, "36"), 6, BorderSet(NewTableXml, GoldHex, "18"), LuxeContent(d, debut, fin, im))
  }

  method FillLuxeContent(d: ReportData, debut: string, fin: string, im: Imaging) returns (bs: seq<Block>)
    ensures bs == LuxeContent(d, debut, fin, im)
  {
    var logos: seq<Block> := [];
    if HasImage(d.logos.logoEcole) || HasImage(d.logos.logoEntreprise) {
      var t := LogoPairTable(InnerPairSettings(7.0), [NoIndent, Aligned(AlignCenter)], [NoIndent, Aligned(AlignCenter)], im, d.logos, 1.5);
      logos := [CellParagraph(6, [], [])] + InCell(t);
    }
    var sujet := OptionalBlock(d.sujetStage != "", CellParagraph(8, [Aligned(AlignCenter)], [Text(d.sujetStage, [SizePt(13), Italic, Color(Rgb(80, 80, 80))])]));
    var image := ImageParagraph(CellFormat(10, [Aligned(AlignCenter)]), im, d.logos.imageCentrale, 2.5);
    var heading := [ContentStart]
      + logos
      + [CellParagraph(10, [], [])]
      + [CellParagraph(4, [Aligned(AlignCenter)], [Text(SchoolName(d), [SizePt(11), Color(Gold), SmallCaps])])]
      + [CellParagraph(6, [Aligned(AlignCenter)], [Text("— ✦ —", [SizePt(10), Color(Gold)])])]
      + [CellParagraph(6, [Aligned(AlignCenter)], [Text("RAPPORT DE STAGE", [Bold, SizePt(26), Color(Rgb(50, 50, 50))])])]
      + sujet
      + image;
    assert heading == LuxeHeading(d, im);
    var details := [CellParagraph(10, [], [])]
      + [CellParagraph(8, [Aligned(AlignCenter)], [Text("───────────────────", [SizePt(10), Color(Gold)])])]
      + [CellParagraph(6, [Aligned(AlignCenter)], [StudentRun(d)])]
      + [CellParagraph(2, [Aligned(AlignCenter)], [Text(FormationName(d), [SizePt(11), Italic])])]
      + [CellParagraph(10, [], [])]
      + [CellParagraph(2, [Aligned(AlignCenter)], [Text(CompanyName(d), [SizePt(13), Color(Gold)])])]
      + [CellParagraph(4, [Aligned(AlignCenter)], [Text(debut + "  —  " + fin, [SizePt(10), Color(DarkGrey)])])]
      + [CellParagraph(8, [], [])]
      + [CellParagraph(6, [Aligned(AlignCenter)], [Text(Or(d.anneeScolaire, "[Année scolaire]"), [SizePt(10), Color(Gold), SmallCaps])])];
    assert details == LuxeDetails(d, debut, fin);
    bs := heading + details;
  }

  /** The luxe cover reads no colour from the request, so it always succeeds. */
  method GenerateCoverLuxe(doc: Container, d: ReportData, debut: string, fin: string, duree: string, im: Imaging)
    modifies doc
    ensures doc.blocks == old(doc.blocks) + LuxeCover(d, debut, fin, im)
  {
    var content := FillLuxeContent(d, debut, fin, im);
    var bs := PutInFrames(GoldHex, "36", 6, "18", content);
    doc.AddAll(bs);
  }

  // ---------------------------------------------------------------------
  // What the covers show
  // ---------------------------------------------------------------------

  /** A text shown in the framed content is shown in the frames, two tables down. */
  lemma {:induction false} FramesShow(outerXml: seq<TblChild>, spacer: int, innerXml: seq<TblChild>, content: seq<Block>, s: string, depth: nat)
    requires depth >= 2 && ShowsText(content, s, depth - 2)
    ensures ShowsText(Frames(outerXml, spacer, innerXml, content), s, depth)
  {
    var inner := Table(InnerFrameSettings, innerXml, [[Cell([], content)]]);
    var innerCell := Cell([], content);
    TextInCell([inner, EmptyParagraph], inner, [innerCell], innerCell, s, depth - 1);
    var outerCell := Cell([], [EmptyParagraph, CellParagraph(spacer, [], [])] + InCell(inner));
    assert inner in outerCell.blocks;
    TextInCell(outerCell.blocks, inner, [innerCell], innerCell, s, depth - 1);
    var outer := Frames(outerXml, spacer, innerXml, content)[0];
    TextInCell([outer], outer, [outerCell], outerCell, s, depth);
  }

  /** A text shown in the elegant content cell is shown in the cover, one table down. */
  lemma {:induction false} ElegantCellShows(d: ReportData, debut: string, fin: string, im: Imaging, c: Rgb, s: string, depth: nat)
    requires depth >= 1 && ShowsText(ElegantContent(d, debut, fin, im, c), s, depth - 1)
    ensures ShowsText(ElegantCover(d, debut, fin, im, c), s, depth)
  {
    var cover := ElegantCover(d, debut, fin, im, c);
    var row := cover[0].rows[0];
    TextInCell(cover, cover[0], row, row[1], s, depth);
  }

  /** The elegant content names the student, the company, the dates and the subject when there is one. */
  lemma {:induction false} ElegantContentShows(d: ReportData, debut: string, fin: string, im: Imaging, c: Rgb, depth: nat)
    ensures ShowsText(ElegantContent(d, debut, fin, im, c), StudentName(d), depth)
    ensures ShowsText(ElegantContent(d, debut, fin, im, c), CompanyName(d), depth)
    ensures ShowsText(ElegantContent(d, debut, fin, im, c), DatesText(debut, fin), depth)
    ensures d.sujetStage != "" ==> ShowsText(ElegantContent(d, debut, fin, im, c), d.sujetStage, depth)
  {
    var content := ElegantContent(d, debut, fin, im, c);
    var details := ElegantDetails(d, debut, fin, c);
    var student := CellParagraph(4, [], [StudentRun(d)]);
    assert student in details;
    TextInParagraph(content, student, StudentRun(d), depth);
    var company := Text(CompanyName(d), [Bold, SizePt(14), Color(c)]);
    var named := CellParagraph(4, [], [company]);
    assert named in details;
    TextInParagraph(content, named, company, depth);
    var dates := Text(DatesText(debut, fin), [SizePt(12)]);
    var p := CellParagraph(15, [], [dates]);
    assert p in details;
    TextInParagraph(content, p, dates, depth);
    if d.sujetStage != "" {
      var sujet := Text(d.sujetStage, [SizePt(14), Italic]);
      var q := CellParagraph(12, [], [sujet]);
      assert q in ElegantHeading(d, im, c);
      TextInParagraph(content, q, sujet, depth);
    }
  }

  lemma {:induction false} ElegantShows(d: ReportData, debut: string, fin: string, im: Imaging, c: Rgb, depth: nat)
    requires depth >= 1
    ensures ShowsText(ElegantCover(d, debut, fin, im, c), StudentName(d), depth)
    ensures ShowsText(ElegantCover(d, debut, fin, im, c), CompanyName(d), depth)
    ensures ShowsText(ElegantCover(d, debut, fin, im, c), DatesText(debut, fin), depth)
    ensures d.sujetStage != "" ==> ShowsText(ElegantCover(d, debut, fin, im, c), d.sujetStage, depth)
  {
    ElegantContentShows(d, debut, fin, im, c, depth - 1);
    ElegantCellShows(d, debut, fin, im, c, StudentName(d), depth);
    ElegantCellShows(d, debut, fin, im, c, CompanyName(d), depth);
    ElegantCellShows(d, debut, fin, im, c, DatesText(debut, fin), depth);
    if d.sujetStage != "" {
      ElegantCellShows(d, debut, fin, im, c, d.sujetStage, depth);
    }
  }

  /** The academique content names the student, the company ("Stage effectué chez …"), the dates and the subject. */
  lemma {:induction false} AcademiqueContentShows(d: ReportData, debut: string, fin: string, im: Imaging, c: Rgb, depth: nat)
    ensures ShowsText(AcademiqueContent(d, debut, fin, im, c), StudentName(d), depth)
    ensures ShowsText(AcademiqueContent(d, debut, fin, im, c), "Stage effectué chez " + CompanyName(d), depth)
    ensures ShowsText(AcademiqueContent(d, debut, fin, im, c), DatesText(debut, fin), depth)
    ensures d.sujetStage != "" ==> ShowsText(AcademiqueContent(d, debut, fin, im, c), d.sujetStage, depth)
  {
    var content := AcademiqueContent(d, debut, fin, im, c);
    var details := AcademiqueDetails(d, debut, fin, c);
    var student := CellParagraph(8, [Aligned(AlignCenter)], [StudentRun(d)]);
    assert student in details;
    TextInParagraph(content, student, StudentRun(d), depth);
    var company := Text("Stage effectué chez " + CompanyName(d), [SizePt(12)]);
    var named := CellParagraph(4, [Aligned(AlignCenter)], [company]);
    assert named in details;
    TextInParagraph(content, named, company, depth);
    var dates := Text(DatesText(debut, fin), [SizePt(11)]);
    var p := CellParagraph(15, [Aligned(AlignCenter)], [dates]);
    assert p in details;
    TextInParagraph(content, p, dates, depth);
    if d.sujetStage != "" {
      var sujet := Text(d.sujetStage, [SizePt(14), Italic]);
      var q := CellParagraph(12, [Aligned(AlignCenter)], [sujet]);
      assert q in AcademiqueHeading(d, im, c);
      TextInParagraph(content, q, sujet, depth);
    }
  }

  lemma {:induction false} AcademiqueShows(d: ReportData, debut: string, fin: string, im: Imaging, c: Rgb, depth: nat)
    requires depth >= 2
    ensures ShowsText(AcademiqueCover(d, debut, fin, im, c), StudentName(d), depth)
    ensures ShowsText(AcademiqueCover(d, debut, fin, im, c), "Stage effectué chez " + CompanyName(d), depth)
    ensures ShowsText(AcademiqueCover(d, debut, fin, im, c), DatesText(debut, fin), depth)
    ensures d.sujetStage != "" ==> ShowsText(AcademiqueCover(d, debut, fin, im, c), d.sujetStage, depth)
  {
    var content := AcademiqueContent(d, debut, fin, im, c);
    var outer, inner := BorderSet(NewTableXml, d.style.title1Color, "24"), BorderSet(NewTableXml, d.style.title1Color, "12");
    AcademiqueContentShows(d, debut, fin, im, c, depth - 2);
    FramesShow(outer, 4, inner, content, StudentName(d), depth);
    FramesShow(outer, 4, inner, content, "Stage effectué chez " + CompanyName(d), depth);
    FramesShow(outer, 4, inner, content, DatesText(debut, fin), depth);
    if d.sujetStage != "" {
      FramesShow(outer, 4, inner, content, d.sujetStage, depth);
    }
  }

  /** The luxe content names the student, the company, the dates and the subject when there is one. */
  lemma {:induction false} LuxeContentShows(d: ReportData, debut: string, fin: string, im: Imaging, depth: nat)
    ensures ShowsText(LuxeContent(d, debut, fin, im), StudentName(d), depth)
    ensures ShowsText(LuxeContent(d, debut, fin, im), CompanyName(d), depth)
    ensures ShowsText(LuxeContent(d, debut, fin, im), debut + "  —  " + fin, depth)
    ensures d.sujetStage != "" ==> ShowsText(LuxeContent(d, debut, fin, im), d.sujetStage, depth)
  {
    var content := LuxeContent(d, debut, fin, im);
    var details := LuxeDetails(d, debut, fin);
    var student := CellParagraph(6, [Aligned(AlignCenter)], [StudentRun(d)]);
    assert student in details;
    TextInParagraph(content, student, StudentRun(d), depth);
    var company := Text(CompanyName(d), [SizePt(13), Color(Gold)]);
    var named := CellParagraph(2, [Aligned(AlignCenter)], [company]);
    assert named in details;
    TextInParagraph(content, named, company, depth);
    var dates := Text(debut + "  —  " + fin, [SizePt(10), Color(DarkGrey)]);
    var p := CellParagraph(4, [Aligned(AlignCenter)], [dates]);
    assert p in details;
    TextInParagraph(content, p, dates, depth);
    if d.sujetStage != "" {
      var sujet := Text(d.sujetStage, [SizePt(13), Italic, Color(Rgb(80, 80, 80))]);
      var q := CellParagraph(8, [Aligned(AlignCenter)], [sujet]);
      assert q in LuxeHeading(d, im);
      TextInParagraph(content, q, sujet, depth);
    }
  }

  lemma {:induction false} LuxeShows(d: ReportData, debut: string, fin: string, im: Imaging, depth: nat)
    requires depth >= 2
    ensures ShowsText(LuxeCover(d, debut, fin, im), StudentName(d), depth)
    ensures ShowsText(LuxeCover(d, debut, fin, im), CompanyName(d), depth)
    ensures ShowsText(LuxeCover(d, debut, fin, im), debut + "  —  " + fin, depth)
    ensures d.sujetStage != "" ==> ShowsText(LuxeCover(d, debut, fin, im), d.sujetStage, depth)
  {
    var content := LuxeContent(d, debut, fin, im);
    var outer, inner := BorderSet(NewTableXml, GoldHex, "36"), BorderSet(NewTableXml, GoldHex, "18");
    LuxeContentShows(d, debut, fin, im, depth - 2);
    FramesShow(outer, 6, inner, content, StudentName(d), depth);
    FramesShow(outer, 6, inner, content, CompanyName(d), depth);
    FramesShow(outer, 6, inner, content, debut + "  —  " + fin, depth);
    if d.sujetStage != "" {
      FramesShow(outer, 6, inner, content, d.sujetStage, depth);
    }
  }
  /**
   * The elegant and academique covers write the academic tutor line when the
   * name is given, and only then: without it their details hold one block fewer.
   */
  lemma {:induction false} AcademicTutorLineGated(d: ReportData, debut: string, fin: string, c: Rgb)
    ensures |ElegantDetails(d, debut, fin, c)| == 7 + (if d.entrepriseVille != "" then 1 else 0) + (if d.tuteurAcademiqueNom != "" then 1 else 0)
    ensures |AcademiqueDetails(d, debut, fin, c)| == 8 + (if d.tuteurAcademiqueNom != "" then 1 else 0)
    ensures d.tuteurAcademiqueNom != "" ==>
      ShowsText(ElegantDetails(d, debut, fin, c), AcademicTutorLine(d), 0) && ShowsText(AcademiqueDetails(d, debut, fin, c), AcademicTutorLine(d), 0)
  {
    if d.tuteurAcademiqueNom != "" {
      var e := ElegantDetails(d, debut, fin, c);
      var pe := CellParagraph(0, [], [Text(AcademicTutorLine(d), [SizePt(12)])]);
      assert e[|e| - 1] == pe;
      TextInParagraph(e, pe, pe.runs[0], 0);
      var a := AcademiqueDetails(d, debut, fin, c);
      var pa := CellParagraph(4, [Aligned(AlignCenter)], [Text(AcademicTutorLine(d), [SizePt(10)])]);
      assert a[6] == pa;
      TextInParagraph(a, pa, pa.runs[0], 0);
    }
  }
}
