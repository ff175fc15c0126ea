// Three covers laid out in table columns: geometrique (a shaded year block,
// a short coloured line and an information table), bicolore (a shaded left
// column beside the content) and timeline (a column of dots and bars marking
// the internship's start and end beside the content).
module ColumnCovers {
  import opened Wrappers
  import opened Document
  import opened Schemas
  import opened Colors
  import opened Images
  import opened TableXml
  import opened Text
  import opened CoverParts
  import opened Covers
  import opened FramedCovers
  import opened DateMarkers

  // ---------------------------------------------------------------------
  // geometrique
  // ---------------------------------------------------------------------

  const GeoTopSettings: seq<TableTag> := [TableAlign(AlignCenter), NoAutofit, ColumnWidthCm(0, 10.0), ColumnWidthCm(1, 6.0)]

  function GeoYearParagraph(d: ReportData): Block
  {
    Paragraph([Aligned(AlignCenter), NoIndent, SpaceBeforePt(15), SpaceAfterPt(15)], [Text(Or(d.anneeScolaire, "[Année]"), [SizePt(14), Color(White), Bold])])
  }

  /** The school logo on the left, the school year in a shaded block on the right. */
  function GeoTop(d: ReportData, im: Imaging): Block
  {
    Table(GeoTopSettings, BordersRemoved(NewTableXml),
      [[OneParagraphCell(LogoParagraph([NoIndent, Aligned(AlignLeft)], im, d.logos.logoEcole, 2.0)),
        Shaded(OneParagraphCell(GeoYearParagraph(d)), d.style.title1Color)]])
  }

  method BuildGeoTop(d: ReportData, im: Imaging) returns (t: Block)
    ensures t == GeoTop(d, im)
  {
    var xml := BorderlessXml();
    var right := SetCellShading(OneParagraphCell(EmptyParagraph), LStrip(d.style.title1Color, '#'));
    var left := OneParagraphCell(EmptyParagraph);
    if HasImage(d.logos.logoEcole) {
      left := OneParagraphCell(Paragraph([NoIndent, Aligned(AlignLeft)], PictureRuns(im, d.logos.logoEcole.value, 2.0)));
    }
    right := right.(blocks := [GeoYearParagraph(d)]);
    t := Table(GeoTopSettings, xml, [[left, right]]);
  }

  const GeoLineSettings: seq<TableTag> := [NoAutofit, ColumnWidthCm(0, 5.0)]

  /** The decorative line: a 5 cm shaded cell holding its first paragraph and one more. */
  function GeoLine(d: ReportData): Block
  {
    Table(GeoLineSettings, BordersRemoved(NewTableXml),
      [[Shaded(Cell([], [EmptyParagraph, CellParagraph(0, [], [])]), d.style.title1Color)]])
  }

  method BuildGeoLine(d: ReportData) returns (t: Block)
    ensures t == GeoLine(d)
  {
    var cell := SetCellShading(OneParagraphCell(EmptyParagraph), LStrip(d.style.title1Color, '#'));
    var xml := BorderlessXml();
    cell := cell.(blocks := cell.blocks + [CellParagraph(0, [], [])]);
    assert cell.blocks == [EmptyParagraph, CellParagraph(0, [], [])];
    assert cell == Shaded(Cell([], [EmptyParagraph, CellParagraph(0, [], [])]), d.style.title1Color);
    t := Table(GeoLineSettings, xml, [[cell]]);
  }

  const GeoInfoSettings: seq<TableTag> := [TableAlign(AlignLeft), NoAutofit, ColumnWidthCm(0, 8.0), ColumnWidthCm(1, 8.0)]

  /** Two rows: company and dates, then the tutor and the company logo on the right. */
  function GeoInfo(d: ReportData, debut: string, fin: string, im: Imaging): Block
  {
    Table(GeoInfoSettings, BordersRemoved(NewTableXml),
      [[OneParagraphCell(Paragraph([NoIndent], [Text("Entreprise : ", [SizePt(10), Color(DarkGrey)]), Text(CompanyName(d), [SizePt(11), Bold])])),
        OneParagraphCell(Paragraph([NoIndent], [Text(DatesText(debut, fin), [SizePt(10)])]))],
       [OneParagraphCell(Paragraph([NoIndent], [Text(TutorLine(d), [SizePt(10)])])),
        OneParagraphCell(LogoParagraph([NoIndent, Aligned(AlignRight)], im, d.logos.logoEntreprise, 1.5))]])
  }

  method BuildGeoInfo(d: ReportData, debut: string, fin: string, im: Imaging) returns (t: Block)
    ensures t == GeoInfo(d, debut, fin, im)
  {
    var xml := BorderlessXml();
    var logo := OneParagraphCell(EmptyParagraph);
    if HasImage(d.logos.logoEntreprise) {
      logo := OneParagraphCell(Paragraph([NoIndent, Aligned(AlignRight)], PictureRuns(im, d.logos.logoEntreprise.value, 1.5)));
    }
    var first := [OneParagraphCell(Paragraph([NoIndent], [Text("Entreprise : ", [SizePt(10), Color(DarkGrey)]), Text(CompanyName(d), [SizePt(11), Bold])])),
      OneParagraphCell(Paragraph([NoIndent], [Text(DatesText(debut, fin), [SizePt(10)])]))];
    var second := [OneParagraphCell(Paragraph([NoIndent], [Text(TutorLine(d), [SizePt(10)])])), logo];
    t := Table(GeoInfoSettings, xml, [first, second]);
  }

  function GeometriqueHeading(d: ReportData, im: Imaging, c: Rgb): seq<Block>
  {
    [GeoTop(d, im)]
    + [CenteredParagraph(20, [])]
    + [Paragraph(FlushLeft(6), [TitleRun(28, c)])]
    + When(d.sujetStage != "", [Paragraph(FlushLeft(15), [Text(d.sujetStage, [SizePt(14), Italic])])])
    + [GeoLine(d)]
    + SpacedImage([CenteredParagraph(15, [])], CenteredFormat(15), im, d.logos.imageCentrale, 3.0)
  }

  function GeometriqueDetails(d: ReportData, debut: string, fin: string, im: Imaging): seq<Block>
  {
    [CenteredParagraph(20, [])]
    + [Paragraph(FlushLeft(4), [StudentRun(d)])]
    + [Paragraph(FlushLeft(4), [Text(FormationName(d), [SizePt(12)])])]
    + [Paragraph(FlushLeft(20), [Text(SchoolName(d), [SizePt(12), Color(DarkGrey)])])]
    + [GeoInfo(d, debut, fin, im)]
  }

  function GeometriqueCover(d: ReportData, debut: string, fin: string, im: Imaging, c: Rgb): seq<Block>
  {
    GeometriqueHeading(d, im, c) + GeometriqueDetails(d, debut, fin, im)
  }

  method GenerateCoverGeometrique(doc: Container, d: ReportData, debut: string, fin: string, duree: string, im: Imaging) returns (ok: bool)
    modifies doc
    ensures ok <==> Primary(d).Some?
    ensures ok ==> doc.blocks == old(doc.blocks) + GeometriqueCover(d, debut, fin, im, Primary(d).value)
    ensures !ok ==> doc.blocks == old(doc.blocks)
  {
    var primary := HexToRgb(d.style.title1Color);
    if primary.None? {
      return false;
    }
    var c := primary.value;
    var top := BuildGeoTop(d, im);
    var sujet := OptionalBlock(d.sujetStage != "", Paragraph(FlushLeft(15), [Text(d.sujetStage, [SizePt(14), Italic])]));
    var line := BuildGeoLine(d);
    var image := SpacedImageParagraph([CenteredParagraph(15, [])], CenteredFormat(15), im, d.logos.imageCentrale, 3.0);
    var heading := [top]
      + [CenteredParagraph(20, [])]
      + [Paragraph(FlushLeft(6), [TitleRun(28, c)])]
      + sujet
      + [line]
      + image;
    assert heading == GeometriqueHeading(d, im, c);
    var info := BuildGeoInfo(d, debut, fin, im);
    var details := [CenteredParagraph(20, [])]
      + [Paragraph(FlushLeft(4), [StudentRun(d)])]
      + [Paragraph(FlushLeft(4), [Text(FormationName(d), [SizePt(12)])])]
      + [Paragraph(FlushLeft(20), [Text(SchoolName(d), [SizePt(12), Color(DarkGrey)])])]
      + [info];
    assert details == GeometriqueDetails(d, debut, fin, im);
    doc.AddAll(heading + details);
    return true;
  }

  // ---------------------------------------------------------------------
  // bicolore
  // ---------------------------------------------------------------------

  const BicoloreSettings: seq<TableTag> := [TableAlign(AlignCenter), NoAutofit, ColumnWidthCm(0, 6.4), ColumnWidthCm(1, 9.6)]
  const Silver := Rgb(200, 200, 200)

  /** The shaded column: logos, "STAGE", the school year and the two dates. */
  function BicoloreLeft(d: ReportData, debut: string, fin: string, im: Imaging): seq<Block>
  {
    [ContentStart]
    + SpacedImage([CellParagraph(15, [], [])], CellFormat(15, [Aligned(AlignCenter)]), im, d.logos.logoEcole, 2.0)
    + Repeat(CellParagraph(20, [], []), 3)
    + [CellParagraph(30, [Aligned(AlignCenter)], [Text("STAGE", [Bold, SizePt(24), Color(White)])])]
    + [CellParagraph(10, [Aligned(AlignCenter)], [Text(Or(d.anneeScolaire, "[Année]"), [SizePt(12), Color(Silver)])])]
    + [CellParagraph(30, [Aligned(AlignCenter)], [Text(debut + "\n—\n" + fin, [SizePt(10), Color(Silver)])])]
    + SpacedImage(Repeat(CellParagraph(20, [], []), 2), CellFormat(10, [Aligned(AlignCenter)]), im, d.logos.logoEntreprise, 1.5)
  }

  method FillBicoloreLeft(d: ReportData, debut: string, fin: string, im: Imaging) returns (bs: seq<Block>)
    ensures bs == BicoloreLeft(d, debut, fin, im)
  {
    var school := SpacedImageParagraph([CellParagraph(15, [], [])], CellFormat(15, [Aligned(AlignCenter)]), im, d.logos.logoEcole, 2.0);
    var spacers := Repeated(CellParagraph(20, [], []), 3);
    var company: seq<Block> := [];
    if HasImage(d.logos.logoEntreprise) {
      var before := Repeated(CellParagraph(20, [], []), 2);
      company := before + [CellParagraph(10, [Aligned(AlignCenter)], PictureRuns(im, d.logos.logoEntreprise.value, 1.5))];
    }
    bs := [ContentStart]
      + school
      + spacers
      + [CellParagraph(30, [Aligned(AlignCenter)], [Text("STAGE", [Bold, SizePt(24), Color(White)])])]
      + [CellParagraph(10, [Aligned(AlignCenter)], [Text(Or(d.anneeScolaire, "[Année]"), [SizePt(12), Color(Silver)])])]
      + [CellParagraph(30, [Aligned(AlignCenter)], [Text(debut + "\n—\n" + fin, [SizePt(10), Color(Silver)])])]
      + company;
  }

  /** The content column down to the central image. */
  function BicoloreTitle(d: ReportData, im: Imaging, c: Rgb): seq<Block>
  {
    [ContentStart]
    + [CellParagraph(30, [], [])]
    + [CellParagraph(6, [], [Text("RAPPORT\nDE STAGE", [Bold, SizePt(28), Color(c)])])]
    + When(d.sujetStage != "", [CellParagraph(12, [], []), CellParagraph(12, [], [Text(d.sujetStage, [SizePt(14), Italic])])])
    + SpacedImage([CellParagraph(8, [], [])], CellFormat(12, []), im, d.logos.imageCentrale, 2.5)
  }

  function BicoloreDetails(d: ReportData, c: Rgb): seq<Block>
  {
    [CellParagraph(25, [], [])]
    + [CellParagraph(4, [], [StudentRun(d)])]
    + [CellParagraph(4, [], [Text(FormationName(d), [SizePt(12)])])]
    + [CellParagraph(20, [], [Text(SchoolName(d), [SizePt(11), Color(DarkGrey)])])]
    + [CellParagraph(4, [], [Text(CompanyName(d), [Bold, SizePt(14), Color(c)])])]
    + When(d.entrepriseVille != "", [CellParagraph(15, [], [Text(d.entrepriseVille, [SizePt(11)])])])
    + [CellParagraph(20, [], [])]
    + [CellParagraph(4, [], [Text(TutorLine(d), [SizePt(10), Color(DarkGrey)])])]
  }

  method FillBicoloreRight(d: ReportData, im: Imaging, c: Rgb) returns (bs: seq<Block>)
    ensures bs == BicoloreTitle(d, im, c) + BicoloreDetails(d, c)
  {
    var sujet: seq<Block> := [];
    if d.sujetStage != "" {
      sujet := [CellParagraph(12, [], []), CellParagraph(12, [], [Text(d.sujetStage, [SizePt(14), Italic])])];
    }
    var image := SpacedImageParagraph([CellParagraph(8, [], [])], CellFormat(12, []), im, d.logos.imageCentrale, 2.5);
    var title := [ContentStart]
      + [CellParagraph(30, [], [])]
      + [CellParagraph(6, [], [Text("RAPPORT\nDE STAGE", [Bold, SizePt(28), Color(c)])])]
      + sujet
      + image;
    assert title == BicoloreTitle(d, im, c);
    var ville := OptionalBlock(d.entrepriseVille != "", CellParagraph(15, [], [Text(d.entrepriseVille, [SizePt(11)])]));
    var details := [CellParagraph(25, [], [])]
      + [CellParagraph(4, [], [StudentRun(d)])]
      + [CellParagraph(4, [], [Text(FormationName(d), [SizePt(12)])])]
      + [CellParagraph(20, [], [Text(SchoolName(d), [SizePt(11), Color(DarkGrey)])])]
      + [CellParagraph(4, [], [Text(CompanyName(d), [Bold, SizePt(14), Color(c)])])]
      + ville
      + [CellParagraph(20, [], [])]
      + [CellParagraph(4, [], [Text(TutorLine(d), [SizePt(10), Color(DarkGrey)])])];
    assert details == BicoloreDetails(d, c);
    bs := title + details;
  }

  function BicoloreCover(d: ReportData, debut: string, fin: string, im: Imaging, c: Rgb): seq<Block>
  {
    [Table(BicoloreSettings, BordersRemoved(NewTableXml),
      [[Shaded(Cell([], BicoloreLeft(d, debut, fin, im)), d.style.title1Color),
        Cell([], BicoloreTitle(d, im, c) + BicoloreDetails(d, c))]])]
  }

  method GenerateCoverBicolore(doc: Container, d: ReportData, debut: string, fin: string, duree: string, im: Imaging) returns (ok: bool)
    modifies doc
    ensures ok <==> Primary(d).Some?
    ensures ok ==> doc.blocks == old(doc.blocks) + BicoloreCover(d, debut, fin, im, Primary(d).value)
    ensures !ok ==> doc.blocks == old(doc.blocks)
  {
    var primary := HexToRgb(d.style.title1Color);
    if primary.None? {
      return false;
    }
    var xml := BorderlessXml();
    var left := FillBicoloreLeft(d, debut, fin, im);
    var right := FillBicoloreRight(d, im, primary.value);
    var leftCell := SetCellShading(Cell([], left), LStrip(d.style.title1Color, '#'));
    var row := [leftCell, Cell([], right)];
    doc.Add(Table(BicoloreSettings, xml, [row]));
    return true;
  }

  // ---------------------------------------------------------------------
  // timeline
  // ---------------------------------------------------------------------

  const TimelineSettings: seq<TableTag> := [TableAlign(AlignCenter), NoAutofit, ColumnWidthCm(0, 2.0), ColumnWidthCm(1, 14.0)]

  function Dot(c: Rgb): Run
  {
    Text("●", [SizePt(14), Color(c)])
  }

  function Bar(c: Rgb): Block
  {
    CellParagraph(0, [Aligned(AlignCenter)], [Text("│", [SizePt(10), Color(c)])])
  }

  /** The narrow column: a dot over the start marker, six bars, a spacer, a dot over the end marker. */
  function TimelineColumn(debut: string, fin: string, c: Rgb): seq<Block>
  {
    [ContentStart]
    + [CellParagraph(4, [Aligned(AlignCenter)], [Dot(c)])]
    + [CellParagraph(20, [Aligned(AlignCenter)], [Text(DateMarker(debut), [SizePt(8), Color(DarkGrey)])])]
    + Repeat(Bar(c), 6)
    + [CellParagraph(20, [], [])]
    + [CellParagraph(4, [Aligned(AlignCenter)], [Dot(c)])]
    + [CellParagraph(0, [Aligned(AlignCenter)], [Text(DateMarker(fin), [SizePt(8), Color(DarkGrey)])])]
  }

  method FillTimelineColumn(debut: string, fin: string, c: Rgb) returns (bs: seq<Block>)
    ensures bs == TimelineColumn(debut, fin, c)
  {
    var bars := Repeated(Bar(c), 6);
    bs := [ContentStart]
      + [CellParagraph(4, [Aligned(AlignCenter)], [Dot(c)])]
      + [CellParagraph(20, [Aligned(AlignCenter)], [Text(DateMarker(debut), [SizePt(8), Color(DarkGrey)])])]
      + bars
      + [CellParagraph(20, [], [])]
      + [CellParagraph(4, [Aligned(AlignCenter)], [Dot(c)])]
      + [CellParagraph(0, [Aligned(AlignCenter)], [Text(DateMarker(fin), [SizePt(8), Color(DarkGrey)])])];
  }

  function TimelineHeading(d: ReportData, im: Imaging, c: Rgb): seq<Block>
  {
    [ContentStart]
    + When(HasLogo(d.logos), InCell(LogoPair(InnerPairSettings(6.0), [NoIndent], [NoIndent, Aligned(AlignRight)], im, d.logos, 1.5)))
    + [CellParagraph(15, [], [])]
    + [CellParagraph(4, [], [TitleRun(26, c)])]
    + When(d.sujetStage != "", [CellParagraph(10, [], [Text(d.sujetStage, [SizePt(13), Italic])])])
    + ImageBlocks(CellFormat(10, []), im, d.logos.imageCentrale, 2.5)
  }

  function TimelineDetails(d: ReportData, c: Rgb): seq<Block>
  {
    [CellParagraph(15, [], [])]
    + [CellParagraph(4, [], [StudentRun(d)])]
    + [CellParagraph(4, [], [Text(FormationName(d), [SizePt(11)])])]
    + [CellParagraph(10, [], [Text(SchoolName(d), [SizePt(10), Color(DarkGrey)])])]
    + [CellParagraph(4, [], [Text(CompanyName(d), [Bold, SizePt(13), Color(c)])])]
    + [CellParagraph(10, [], [])]
    + [CellParagraph(0, [], [Text(TutorLine(d), [SizePt(10), Color(DarkGrey)])])]
  }

  method FillTimelineContent(d: ReportData, im: Imaging, c: Rgb) returns (bs: seq<Block>)
    ensures bs == TimelineHeading(d, im, c) + TimelineDetails(d, c)
  {
    var logos: seq<Block> := [];
    if HasImage(d.logos.logoEcole) || HasImage(d.logos.logoEntreprise) {
      var t := LogoPairTable(InnerPairSettings(6.0), [NoIndent], [NoIndent, Aligned(AlignRight)], im, d.logos, 1.5);
      logos := InCell(t);
    }
    var sujet := OptionalBlock(d.sujetStage != "", CellParagraph(10, [], [Text(d.sujetStage, [SizePt(13), Italic])]));
    var image := ImageParagraph(CellFormat(10, []), im, d.logos.imageCentrale, 2.5);
    var heading := [ContentStart]
      + logos
      + [CellParagraph(15, [], [])]
      + [CellParagraph(4, [], [TitleRun(26, c)])]
      + sujet
      + image;
    assert heading == TimelineHeading(d, im, c);
    var details := [CellParagraph(15, [], [])]
      + [CellParagraph(4, [], [StudentRun(d)])]
      + [CellParagraph(4, [], [Text(FormationName(d), [SizePt(11)])])]
      + [CellParagraph(10, [], [Text(SchoolName(d), [SizePt(10), Color(DarkGrey)])])]
      + [CellParagraph(4, [], [Text(CompanyName(d), [Bold, SizePt(13), Color(c)])])]
      + [CellParagraph(10, [], [])]
      + [CellParagraph(0, [], [Text(TutorLine(d), [SizePt(10), Color(DarkGrey)])])];
    assert details == TimelineDetails(d, c);
    bs := heading + details;
  }

  function TimelineCover(d: ReportData, debut: string, fin: string, im: Imaging, c: Rgb): seq<Block>
  {
    [Table(TimelineSettings, BordersRemoved(NewTableXml),
      [[Cell([], TimelineColumn(debut, fin, c)), Cell([], TimelineHeading(d, im, c) + TimelineDetails(d, c))]])]
  }

  /** The timeline cover, with the date markers as intended (see `DateMarker`). */
  method GenerateCoverTimeline(doc: Container, d: ReportData, debut: string, fin: string, duree: string, im: Imaging) returns (ok: bool)
    modifies doc
    ensures ok <==> Primary(d).Some?
    ensures ok ==> doc.blocks == old(doc.blocks) + TimelineCover(d, debut, fin, im, Primary(d).value)
    ensures !ok ==> doc.blocks == old(doc.blocks)
  {
    var primary := HexToRgb(d.style.title1Color);
    if primary.None? {
      return false;
    }
    var xml := BorderlessXml();
    var column := FillTimelineColumn(debut, fin, primary.value);
    var content := FillTimelineContent(d, im, primary.value);
    var row := [Cell([], column), Cell([], content)];
    doc.Add(Table(TimelineSettings, xml, [row]));
    return true;
  }

  // ---------------------------------------------------------------------
  // What the covers show
  // ---------------------------------------------------------------------

  /** The geometrique cover names the student and the subject in the body, the company and the dates in its information table. */
  lemma {:induction false} GeometriqueShows(d: ReportData, debut: string, fin: string, im: Imaging, c: Rgb, depth: nat)
    requires depth >= 1
    ensures ShowsText(GeometriqueCover(d, debut, fin, im, c), StudentName(d), depth)
    ensures ShowsText(GeometriqueCover(d, debut, fin, im, c), CompanyName(d), depth)
    ensures ShowsText(GeometriqueCover(d, debut, fin, im, c), DatesText(debut, fin), depth)
    ensures d.sujetStage != "" ==> ShowsText(GeometriqueCover(d, debut, fin, im, c), d.sujetStage, depth)
  {
    var cover := GeometriqueCover(d, debut, fin, im, c);
    var details := GeometriqueDetails(d, debut, fin, im);
    var student := Paragraph(FlushLeft(4), [StudentRun(d)]);
    assert student in details;
    TextInParagraph(cover, student, StudentRun(d), depth);
    var info := GeoInfo(d, debut, fin, im);
    assert info in details;
    var row := info.rows[0];
    var company := Text(CompanyName(d), [SizePt(11), Bold]);
    TextInParagraph(row[0].blocks, row[0].blocks[0], company, depth - 1);
    TextInCell(cover, info, row, row[0], CompanyName(d), depth);
    var dates := Text(DatesText(debut, fin), [SizePt(10)]);
    TextInParagraph(row[1].blocks, row[1].blocks[0], dates, depth - 1);
    TextInCell(cover, info, row, row[1], DatesText(debut, fin), depth);
    if d.sujetStage != "" {
      var sujet := Text(d.sujetStage, [SizePt(14), Italic]);
      var q := Paragraph(FlushLeft(15), [sujet]);
      assert q in GeometriqueHeading(d, im, c);
      TextInParagraph(cover, q, sujet, depth);
    }
  }

  /** The bicolore content column names the student, the company and the subject when there is one. */
  lemma {:induction false} BicoloreRightShows(d: ReportData, im: Imaging, c: Rgb, depth: nat)
    ensures ShowsText(BicoloreTitle(d, im, c) + BicoloreDetails(d, c), StudentName(d), depth)
    ensures ShowsText(BicoloreTitle(d, im, c) + BicoloreDetails(d, c), CompanyName(d), depth)
    ensures d.sujetStage != "" ==> ShowsText(BicoloreTitle(d, im, c) + BicoloreDetails(d, c), d.sujetStage, depth)
  {
    var right := BicoloreTitle(d, im, c) + BicoloreDetails(d, c);
    var details := BicoloreDetails(d, c);
    var student := CellParagraph(4, [], [StudentRun(d)]);
    assert student in details;
    TextInParagraph(right, student, StudentRun(d), depth);
    var company := Text(CompanyName(d), [Bold, SizePt(14), Color(c)]);
    var named := CellParagraph(4, [], [company]);
    assert named in details;
    TextInParagraph(right, named, company, depth);
    if d.sujetStage != "" {
      var sujet := Text(d.sujetStage, [SizePt(14), Italic]);
      var q := CellParagraph(12, [], [sujet]);
      assert q in BicoloreTitle(d, im, c);
      TextInParagraph(right, q, sujet, depth);
    }
  }

  /** The bicolore cover: the dates one above the other in the shaded column, everything else beside it. */
  lemma {:induction false} BicoloreShows(d: ReportData, debut: string, fin: string, im: Imaging, c: Rgb, depth: nat)
    requires depth >= 1
    ensures ShowsText(BicoloreCover(d, debut, fin, im, c), StudentName(d), depth)
    ensures ShowsText(BicoloreCover(d, debut, fin, im, c), CompanyName(d), depth)
    ensures ShowsText(BicoloreCover(d, debut, fin, im, c), debut + "\n—\n" + fin, depth)
    ensures d.sujetStage != "" ==> ShowsText(BicoloreCover(d, debut, fin, im, c), d.sujetStage, depth)
  {
    var cover := BicoloreCover(d, debut, fin, im, c);
    var row := cover[0].rows[0];
    var left := BicoloreLeft(d, debut, fin, im);
    var dates := Text(debut + "\n—\n" + fin, [SizePt(10), Color(Silver)]);
    var p := CellParagraph(30, [Aligned(AlignCenter)], [dates]);
    assert p in left;
    TextInParagraph(left, p, dates, depth - 1);
    TextInCell(cover, cover[0], row, row[0], debut + "\n—\n" + fin, depth);
    BicoloreRightShows(d, im, c, depth - 1);
    TextInCell(cover, cover[0], row, row[1], StudentName(d), depth);
    TextInCell(cover, cover[0], row, row[1], CompanyName(d), depth);
    if d.sujetStage != "" {
      TextInCell(cover, cover[0], row, row[1], d.sujetStage, depth);
    }
  }

  /** The timeline content column names the student, the company and the subject when there is one. */
  lemma {:induction false} TimelineContentShows(d: ReportData, im: Imaging, c: Rgb, depth: nat)
    ensures ShowsText(TimelineHeading(d, im, c) + TimelineDetails(d, c), StudentName(d), depth)
    ensures ShowsText(TimelineHeading(d, im, c) + TimelineDetails(d, c), CompanyName(d), depth)
    ensures d.sujetStage != "" ==> ShowsText(TimelineHeading(d, im, c) + TimelineDetails(d, c), d.sujetStage, depth)
  {
    var content := TimelineHeading(d, im, c) + TimelineDetails(d, c);
    var details := TimelineDetails(d, c);
    var student := CellParagraph(4, [], [StudentRun(d)]);
    assert student in details;
    TextInParagraph(content, student, StudentRun(d), depth);
    var company := Text(CompanyName(d), [Bold, SizePt(13), Color(c)]);
    var named := CellParagraph(4, [], [company]);
    assert named in details;
    TextInParagraph(content, named, company, depth);
    if d.sujetStage != "" {
      var sujet := Text(d.sujetStage, [SizePt(13), Italic]);
      var q := CellParagraph(10, [], [sujet]);
      assert q in TimelineHeading(d, im, c);
      TextInParagraph(content, q, sujet, depth);
    }
  }

  /** The timeline cover: the two date markers in the narrow column, everything else beside it. */
  lemma {:induction false} TimelineShows(d: ReportData, debut: string, fin: string, im: Imaging, c: Rgb, depth: nat)
    requires depth >= 1
    ensures ShowsText(TimelineCover(d, debut, fin, im, c), StudentName(d), depth)
    ensures ShowsText(TimelineCover(d, debut, fin, im, c), CompanyName(d), depth)
    ensures ShowsText(TimelineCover(d, debut, fin, im, c), DateMarker(debut), depth)
    ensures ShowsText(TimelineCover(d, debut, fin, im, c), DateMarker(fin), depth)
    ensures d.sujetStage != "" ==> ShowsText(TimelineCover(d, debut, fin, im, c), d.sujetStage, depth)
  {
    var cover := TimelineCover(d, debut, fin, im, c);
    var row := cover[0].rows[0];
    var column := TimelineColumn(debut, fin, c);
    var start := Text(DateMarker(debut), [SizePt(8), Color(DarkGrey)]);
    var p := CellParagraph(20, [Aligned(AlignCenter)], [start]);
    assert p in column;
    TextInParagraph(column, p, start, depth - 1);
    TextInCell(cover, cover[0], row, row[0], DateMarker(debut), depth);
    var end := Text(DateMarker(fin), [SizePt(8), Color(DarkGrey)]);
    var q := CellParagraph(0, [Aligned(AlignCenter)], [end]);
    assert q in column;
    TextInParagraph(column, q, end, depth - 1);
    TextInCell(cover, cover[0], row, row[0], DateMarker(fin), depth);
    TimelineContentShows(d, im, c, depth - 1);
    TextInCell(cover, cover[0], row, row[1], StudentName(d), depth);
    TextInCell(cover, cover[0], row, row[1], CompanyName(d), depth);
    if d.sujetStage != "" {
      TextInCell(cover, cover[0], row, row[1], d.sujetStage, depth);
    }
  }
}
