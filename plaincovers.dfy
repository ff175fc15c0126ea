// Four covers written mostly as centred paragraphs of the document body:
// minimaliste (spacers, a thin rule, no logos), gradient (a coloured banner),
// creative (a split title and decorative rules) and pro (a shaded header row,
// an information table and a footer bar).
module PlainCovers {
  import opened Wrappers
  import opened Document
  import opened Schemas
  import opened Colors
  import opened Images
  import opened TableXml
  import opened Text
  import opened CoverParts
  import opened Covers

  // ---------------------------------------------------------------------
  // minimaliste
  // ---------------------------------------------------------------------

  /** Five spacers, the title over a thin rule, then the subject and the central image. */
  function MinimalisteHeading(d: ReportData, im: Imaging, c: Rgb): seq<Block>
  {
    Repeat(CenteredParagraph(18, []), 5)
    + [CenteredParagraph(6, [TitleRun(28, c)])]
    + [CenteredParagraph(15, [Text("─────────────", [SizePt(12), Color(c)])])]
    + When(d.sujetStage != "", [CenteredParagraph(25, [Text(d.sujetStage, [SizePt(14), Italic])])])
    + ImageBlocks(CenteredFormat(15), im, d.logos.imageCentrale, 2.5)
  }

  function MinimalisteDetails(d: ReportData, debut: string, fin: string): seq<Block>
  {
    [CenteredParagraph(25, [])]
    + [CenteredParagraph(4, [StudentRun(d)])]
    + [CenteredParagraph(15, [Text(FormationName(d), [SizePt(11)])])]
    + [CenteredParagraph(30, [])]
    + [CenteredParagraph(4, [Text(CompanyName(d), [SizePt(12), Color(DarkGrey)])])]
    + [CenteredParagraph(4, [Text(debut + " — " + fin, [SizePt(11), Color(Grey)])])]
  }

  function MinimalisteCover(d: ReportData, debut: string, fin: string, im: Imaging, c: Rgb): seq<Block>
  {
    MinimalisteHeading(d, im, c) + MinimalisteDetails(d, debut, fin)
  }

  method GenerateCoverMinimaliste(doc: Container, d: ReportData, debut: string, fin: string, duree: string, im: Imaging) returns (ok: bool)
    modifies doc
    ensures ok <==> Primary(d).Some?
    ensures ok ==> doc.blocks == old(doc.blocks) + MinimalisteCover(d, debut, fin, im, Primary(d).value)
    ensures !ok ==> doc.blocks == old(doc.blocks)
  {
    var primary := HexToRgb(d.style.title1Color);
    if primary.None? {
      return false;
    }
    var c := primary.value;
    var spacers := Repeated(CenteredParagraph(18, []), 5);
    var sujet := OptionalBlock(d.sujetStage != "", CenteredParagraph(25, [Text(d.sujetStage, [SizePt(14), Italic])]));
    var image := ImageParagraph(CenteredFormat(15), im, d.logos.imageCentrale, 2.5);
    var heading := spacers
      + [CenteredParagraph(6, [TitleRun(28, c)])]
      + [CenteredParagraph(15, [Text("─────────────", [SizePt(12), Color(c)])])]
      + sujet
      + image;
    assert heading == MinimalisteHeading(d, im, c);
    var details := [CenteredParagraph(25, [])]
      + [CenteredParagraph(4, [StudentRun(d)])]
      + [CenteredParagraph(15, [Text(FormationName(d), [SizePt(11)])])]
      + [CenteredParagraph(30, [])]
      + [CenteredParagraph(4, [Text(CompanyName(d), [SizePt(12), Color(DarkGrey)])])]
      + [CenteredParagraph(4, [Text(debut + " — " + fin, [SizePt(11), Color(Grey)])])];
    assert details == MinimalisteDetails(d, debut, fin);
    doc.AddAll(heading + details);
    return true;
  }

  // ---------------------------------------------------------------------
  // gradient
  // ---------------------------------------------------------------------

  function GradientHeading(d: ReportData, im: Imaging): seq<Block>
  {
    [Banner(d, 20, 8, 15, 13)]
    + [CenteredParagraph(15, [])]
    + When(HasLogo(d.logos), [LogoPair(PairSettings, Centred, Centred, im, d.logos, 1.8)])
    + ImageBlocks(CenteredFormat(10), im, d.logos.imageCentrale, 3.0)
  }

  function GradientDetails(d: ReportData, debut: string, fin: string, c: Rgb): seq<Block>
  {
    [CenteredParagraph(20, [])]
    + [CenteredParagraph(4, [StudentRun(d)])]
    + [CenteredParagraph(4, [Text(FormationName(d), [SizePt(12)])])]
    + [CenteredParagraph(15, [Text(SchoolYear(d, "  •  "), [SizePt(11), Color(DarkGrey)])])]
    + [CenteredParagraph(4, [Text(CompanyName(d), [Bold, SizePt(13), Color(c)])])]
    + [CenteredParagraph(10, [Text(DatesText(debut, fin), [SizePt(11)])])]
    + [CenteredParagraph(4, [Text(TutorLine(d), [SizePt(10), Color(DarkGrey)])])]
  }

  function GradientCover(d: ReportData, debut: string, fin: string, im: Imaging, c: Rgb): seq<Block>
  {
    GradientHeading(d, im) + GradientDetails(d, debut, fin, c)
  }

  method GenerateCoverGradient(doc: Container, d: ReportData, debut: string, fin: string, duree: string, im: Imaging) returns (ok: bool)
    modifies doc
    ensures ok <==> Primary(d).Some?
    ensures ok ==> doc.blocks == old(doc.blocks) + GradientCover(d, debut, fin, im, Primary(d).value)
    ensures !ok ==> doc.blocks == old(doc.blocks)
  {
    var primary := HexToRgb(d.style.title1Color);
    if primary.None? {
      return false;
    }
    var c := primary.value;
    var banner := BuildBanner(d, 20, 8, 15, 13);
    var logos: seq<Block> := [];
    if HasImage(d.logos.logoEcole) || HasImage(d.logos.logoEntreprise) {
      var t := LogoPairTable(PairSettings, Centred, Centred, im, d.logos, 1.8);
      logos := [t];
    }
    var image := ImageParagraph(CenteredFormat(10), im, d.logos.imageCentrale, 3.0);
    var heading := [banner]
      + [CenteredParagraph(15, [])]
      + logos
      + image;
    assert heading == GradientHeading(d, im);
    var details := [CenteredParagraph(20, [])]
      + [CenteredParagraph(4, [StudentRun(d)])]
      + [CenteredParagraph(4, [Text(FormationName(d), [SizePt(12)])])]
      + [CenteredParagraph(15, [Text(SchoolYear(d, "  •  "), [SizePt(11), Color(DarkGrey)])])]
      + [CenteredParagraph(4, [Text(CompanyName(d), [Bold, SizePt(13), Color(c)])])]
      + [CenteredParagraph(10, [Text(DatesText(debut, fin), [SizePt(11)])])]
      + [CenteredParagraph(4, [Text(TutorLine(d), [SizePt(10), Color(DarkGrey)])])];
    assert details == GradientDetails(d, debut, fin, c);
    doc.AddAll(heading + details);
    return true;
  }

  // ---------------------------------------------------------------------
  // creative
  // ---------------------------------------------------------------------

  const CreativeLogoSettings: seq<TableTag> := [TableAlign(AlignCenter), NoAutofit, ColumnWidthCm(0, 8.0), ColumnWidthCm(1, 8.0)]

  /** The subject between French quotation marks. */
  function Quoted(s: string): string
  {
    "« " + s + " »"
  }

  function CreativeHeading(d: ReportData, im: Imaging, c: Rgb): seq<Block>
  {
    When(HasLogo(d.logos), [LogoPair(CreativeLogoSettings, [Aligned(AlignLeft), NoIndent], [Aligned(AlignRight), NoIndent], im, d.logos, 1.8)])
    + [CenteredParagraph(30, [])]
    + [CenteredParagraph(0, [Text("RAPPORT", [Bold, SizePt(32), Color(c)])])]
    + [CenteredParagraph(8, [Text("DE STAGE", [SizePt(16), Color(Rgb(150, 150, 150))])])]
    + [CenteredParagraph(15, [Text("━━━━━━━━━━━━━━━━", [SizePt(10), Color(c)])])]
    + When(d.sujetStage != "", [CenteredParagraph(15, [Text(Quoted(d.sujetStage), [SizePt(13), Italic])])])
    + ImageBlocks(CenteredFormat(15), im, d.logos.imageCentrale, 3.0)
  }

  function CreativeDetails(d: ReportData, debut: string, fin: string, c: Rgb): seq<Block>
  {
    [CenteredParagraph(20, [])]
    + [CenteredParagraph(4, [StudentRun(d)])]
    + [CenteredParagraph(4, [Text(FormationName(d), [SizePt(11), Color(DarkGrey)])])]
    + [CenteredParagraph(15, [Text(SchoolYear(d, "  |  "), [SizePt(10)])])]
    + [CenteredParagraph(10, [Text("─────────────", [Color(Rgb(200, 200, 200))])])]
    + [CenteredParagraph(4, [Text(CompanyName(d), [Bold, SizePt(13), Color(c)])])]
    + When(d.entrepriseVille != "", [CenteredParagraph(4, [Text(d.entrepriseVille, [SizePt(10)])])])
    + [CenteredParagraph(8, [Text(debut + "  —  " + fin, [SizePt(10), Color(DarkGrey)])])]
    + [CenteredParagraph(4, [Text("Encadré par " + CompanyTutorName(d), [SizePt(10), Color(Rgb(120, 120, 120))])])]
  }

  function CreativeCover(d: ReportData, debut: string, fin: string, im: Imaging, c: Rgb): seq<Block>
  {
    CreativeHeading(d, im, c) + CreativeDetails(d, debut, fin, c)
  }

  method GenerateCoverCreative(doc: Container, d: ReportData, debut: string, fin: string, duree: string, im: Imaging) returns (ok: bool)
    modifies doc
    ensures ok <==> Primary(d).Some?
    ensures ok ==> doc.blocks == old(doc.blocks) + CreativeCover(d, debut, fin, im, Primary(d).value)
    ensures !ok ==> doc.blocks == old(doc.blocks)
  {
    var primary := HexToRgb(d.style.title1Color);
    if primary.None? {
      return false;
    }
    var c := primary.value;
    var logos: seq<Block> := [];
    if HasImage(d.logos.logoEcole) || HasImage(d.logos.logoEntreprise) {
      var t := LogoPairTable(CreativeLogoSettings, [Aligned(AlignLeft), NoIndent], [Aligned(AlignRight), NoIndent], im, d.logos, 1.8);
      logos := [t];
    }
    var sujet := OptionalBlock(d.sujetStage != "", CenteredParagraph(15, [Text(Quoted(d.sujetStage), [SizePt(13), Italic])]));
    var image := ImageParagraph(CenteredFormat(15), im, d.logos.imageCentrale, 3.0);
    var heading := logos
      + [CenteredParagraph(30, [])]
      + [CenteredParagraph(0, [Text("RAPPORT", [Bold, SizePt(32), Color(c)])])]
      + [CenteredParagraph(8, [Text("DE STAGE", [SizePt(16), Color(Rgb(150, 150, 150))])])]
      + [CenteredParagraph(15, [Text("━━━━━━━━━━━━━━━━", [SizePt(10), Color(c)])])]
      + sujet
      + image;
    assert heading == CreativeHeading(d, im, c);
    var ville := OptionalBlock(d.entrepriseVille != "", CenteredParagraph(4, [Text(d.entrepriseVille, [SizePt(10)])]));
    var details := [CenteredParagraph(20, [])]
      + [CenteredParagraph(4, [StudentRun(d)])]
      + [CenteredParagraph(4, [Text(FormationName(d), [SizePt(11), Color(DarkGrey)])])]
      + [CenteredParagraph(15, [Text(SchoolYear(d, "  |  "), [SizePt(10)])])]
      + [CenteredParagraph(10, [Text("─────────────", [Color(Rgb(200, 200, 200))])])]
      + [CenteredParagraph(4, [Text(CompanyName(d), [Bold, SizePt(13), Color(c)])])]
      + ville
      + [CenteredParagraph(8, [Text(debut + "  —  " + fin, [SizePt(10), Color(DarkGrey)])])]
      + [CenteredParagraph(4, [Text("Encadré par " + CompanyTutorName(d), [SizePt(10), Color(Rgb(120, 120, 120))])])];
    assert details == CreativeDetails(d, debut, fin, c);
    doc.AddAll(heading + details);
    return true;
  }

  // ---------------------------------------------------------------------
  // pro
  // ---------------------------------------------------------------------

  const ProHeaderSettings: seq<TableTag> :=
    [TableAlign(AlignCenter), NoAutofit, ColumnWidthCm(0, 5.0), ColumnWidthCm(1, 6.0), ColumnWidthCm(2, 5.0)]

  /**
   * The header's left paragraph: the school logo with its spacing when the
   * logo is present, otherwise only a taller spacing.
   */
  function ProSchoolParagraph(d: ReportData, im: Imaging): Block
  {
    if HasImage(d.logos.logoEcole) then
      Paragraph([NoIndent, SpaceBeforePt(10), SpaceAfterPt(10), Aligned(AlignLeft)], PictureRuns(im, d.logos.logoEcole.value, 1.5))
    else
      Paragraph([SpaceBeforePt(15), SpaceAfterPt(15)], [])
  }

  function ProYearParagraph(d: ReportData): Block
  {
    Paragraph([Aligned(AlignCenter), NoIndent, SpaceBeforePt(15), SpaceAfterPt(15)], [Text(Or(d.anneeScolaire, "[Année]"), [SizePt(11), Color(White)])])
  }

  /** Three shaded cells: school logo (or spacing), school year, company logo. */
  function ProHeader(d: ReportData, im: Imaging): Block
  {
    Table(ProHeaderSettings, BordersRemoved(NewTableXml),
      [[Shaded(OneParagraphCell(ProSchoolParagraph(d, im)), d.style.title1Color),
        Shaded(OneParagraphCell(ProYearParagraph(d)), d.style.title1Color),
        Shaded(OneParagraphCell(LogoParagraph([NoIndent, SpaceBeforePt(10), SpaceAfterPt(10), Aligned(AlignRight)], im, d.logos.logoEntreprise, 1.5)), d.style.title1Color)]])
  }

  /** `for cell in row.cells: set_cell_shading(cell, colour.lstrip('#'))`. */
  method ShadeAll(row: seq<Cell>, colourHex: string) returns (cells: seq<Cell>)
    ensures |cells| == |row|
    ensures forall j :: 0 <= j < |row| ==> cells[j] == Shaded(row[j], colourHex)
  {
    cells := row;
    for i := 0 to |row|
      invariant |cells| == |row|
      invariant forall j :: 0 <= j < i ==> cells[j] == Shaded(row[j], colourHex)
      invariant forall j :: i <= j < |row| ==> cells[j] == row[j]
    {
      cells := cells[i := SetCellShading(cells[i], LStrip(colourHex, '#'))];
    }
  }

  method BuildProHeader(d: ReportData, im: Imaging) returns (t: Block)
    ensures t == ProHeader(d, im)
  {
    var xml := BorderlessXml();
    var cells := ShadeAll([OneParagraphCell(EmptyParagraph), OneParagraphCell(EmptyParagraph), OneParagraphCell(EmptyParagraph)], d.style.title1Color);
    var school := Paragraph([SpaceBeforePt(15), SpaceAfterPt(15)], []);
    if HasImage(d.logos.logoEcole) {
      school := Paragraph([NoIndent, SpaceBeforePt(10), SpaceAfterPt(10), Aligned(AlignLeft)], PictureRuns(im, d.logos.logoEcole.value, 1.5));
    }
    var company := EmptyParagraph;
    if HasImage(d.logos.logoEntreprise) {
      company := Paragraph([NoIndent, SpaceBeforePt(10), SpaceAfterPt(10), Aligned(AlignRight)], PictureRuns(im, d.logos.logoEntreprise.value, 1.5));
    }
    var row := [cells[0].(blocks := [school]), cells[1].(blocks := [ProYearParagraph(d)]), cells[2].(blocks := [company])];
    t := Table(ProHeaderSettings, xml, [row]);
  }

  const ProInfoSettings: seq<TableTag> := [TableAlign(AlignCenter), NoAutofit, ColumnWidthCm(0, 4.0), ColumnWidthCm(1, 8.0)]

  /** A row of the information table: a grey 10 pt label, then the value run. */
  function InfoRow(caption: string, value: Run): seq<Cell>
  {
    [OneParagraphCell(Paragraph([NoIndent], [Text(caption, [SizePt(10), Color(DarkGrey)])])),
     OneParagraphCell(Paragraph([NoIndent], [value]))]
  }

  /** Four rows; the last names the academic tutor, and stays two empty cells without one. */
  function ProInfoTable(d: ReportData, debut: string, fin: string): Block
  {
    Table(ProInfoSettings, BordersRemoved(NewTableXml),
      [InfoRow("Entreprise", Text(CompanyName(d), [SizePt(12), Bold])),
       InfoRow("Période", Text(debut + " — " + fin, [SizePt(11)])),
       InfoRow("Tuteur", Text(CompanyTutorName(d), [SizePt(11)])),
       if d.tuteurAcademiqueNom != "" then InfoRow("Suivi", Text(d.tuteurAcademiqueNom, [SizePt(11)]))
       else [OneParagraphCell(EmptyParagraph), OneParagraphCell(EmptyParagraph)]])
  }

  method BuildProInfoTable(d: ReportData, debut: string, fin: string) returns (t: Block)
    ensures t == ProInfoTable(d, debut, fin)
  {
    var xml := BorderlessXml();
    var last := [OneParagraphCell(EmptyParagraph), OneParagraphCell(EmptyParagraph)];
    if d.tuteurAcademiqueNom != "" {
      last := InfoRow("Suivi", Text(d.tuteurAcademiqueNom, [SizePt(11)]));
    }
    var rows := [InfoRow("Entreprise", Text(CompanyName(d), [SizePt(12), Bold])),
      InfoRow("Période", Text(debut + " — " + fin, [SizePt(11)])),
      InfoRow("Tuteur", Text(CompanyTutorName(d), [SizePt(11)])),
      last];
    t := Table(ProInfoSettings, xml, rows);
  }

  /** The footer text: the company and its town, or the company name alone (no placeholder). */
  function ProFooterText(d: ReportData): string
  {
    if d.entrepriseVille != "" then d.entrepriseNom + " — " + d.entrepriseVille else d.entrepriseNom
  }

  const ProFooterSettings: seq<TableTag> := [TableAlign(AlignCenter), NoAutofit, ColumnWidthCm(0, 16.0)]

  /** The footer bar: a top rule in the heading colour, then every border removed after it. */
  function ProFooter(d: ReportData): Block
  {
    Table(ProFooterSettings, BordersRemoved(TopBorderSet(NewTableXml, d.style.title1Color, "18")),
      [[OneParagraphCell(Paragraph([Aligned(AlignCenter), NoIndent, SpaceBeforePt(10)], [Text(ProFooterText(d), [SizePt(10), Color(DarkGrey)])]))]])
  }

  method BuildProFooter(d: ReportData) returns (t: Block)
    ensures t == ProFooter(d)
  {
    var tbl := new TableElement(NewTableXml);
    tbl.SetTableBorderTop(d.style.title1Color, "18");
    tbl.RemoveTableBorders();
    var text := d.entrepriseNom;
    if d.entrepriseVille != "" {
      text := d.entrepriseNom + " — " + d.entrepriseVille;
    }
    t := Table(ProFooterSettings, tbl.children,
      [[OneParagraphCell(Paragraph([Aligned(AlignCenter), NoIndent, SpaceBeforePt(10)], [Text(text, [SizePt(10), Color(DarkGrey)])]))]]);
  }

  function ProHeading(d: ReportData, im: Imaging, c: Rgb): seq<Block>
  {
    [ProHeader(d, im)]
    + [CenteredParagraph(30, [])]
    + [CenteredParagraph(6, [TitleRun(28, c)])]
    + When(d.sujetStage != "", [CenteredParagraph(15, [Text(d.sujetStage, [SizePt(14), Italic])])])
    + ImageBlocks(CenteredFormat(15), im, d.logos.imageCentrale, 3.0)
  }

  function ProDetails(d: ReportData, debut: string, fin: string): seq<Block>
  {
    [CenteredParagraph(25, [])]
    + [CenteredParagraph(4, [StudentRun(d)])]
    + [CenteredParagraph(4, [Text(FormationName(d) + "  •  " + SchoolName(d), [SizePt(12)])])]
    + [CenteredParagraph(30, [])]
    + [ProInfoTable(d, debut, fin)]
    + [CenteredParagraph(30, [])]
    + [ProFooter(d)]
  }

  function ProCover(d: ReportData, debut: string, fin: string, im: Imaging, c: Rgb): seq<Block>
  {
    ProHeading(d, im, c) + ProDetails(d, debut, fin)
  }

  method GenerateCoverPro(doc: Container, d: ReportData, debut: string, fin: string, duree: string, im: Imaging) returns (ok: bool)
    modifies doc
    ensures ok <==> Primary(d).Some?
    ensures ok ==> doc.blocks == old(doc.blocks) + ProCover(d, debut, fin, im, Primary(d).value)
    ensures !ok ==> doc.blocks == old(doc.blocks)
  {
    var primary := HexToRgb(d.style.title1Color);
    if primary.None? {
      return false;
    }
    var c := primary.value;
    var header := BuildProHeader(d, im);
    var sujet := OptionalBlock(d.sujetStage != "", CenteredParagraph(15, [Text(d.sujetStage, [SizePt(14), Italic])]));
    var image := ImageParagraph(CenteredFormat(15), im, d.logos.imageCentrale, 3.0);
    var heading := [header]
      + [CenteredParagraph(30, [])]
      + [CenteredParagraph(6, [TitleRun(28, c)])]
      + sujet
      + image;
    assert heading == ProHeading(d, im, c);
    var info := BuildProInfoTable(d, debut, fin);
    var footer := BuildProFooter(d);
    var details := [CenteredParagraph(25, [])]
      + [CenteredParagraph(4, [StudentRun(d)])]
      + [CenteredParagraph(4, [Text(FormationName(d) + "  •  " + SchoolName(d), [SizePt(12)])])]
      + [CenteredParagraph(30, [])]
      + [info]
      + [CenteredParagraph(30, [])]
      + [footer];
    assert details == ProDetails(d, debut, fin);
    doc.AddAll(heading + details);
    return true;
  }

  // ---------------------------------------------------------------------
  // What the covers show
  // ---------------------------------------------------------------------

  /** The minimaliste cover names the student, the company, the dates and the subject when there is one. */
  lemma {:induction false} MinimalisteShows(d: ReportData, debut: string, fin: string, im: Imaging, c: Rgb, depth: nat)
    ensures ShowsText(MinimalisteCover(d, debut, fin, im, c), StudentName(d), depth)
    ensures ShowsText(MinimalisteCover(d, debut, fin, im, c), CompanyName(d), depth)
    ensures ShowsText(MinimalisteCover(d, debut, fin, im, c), debut + " — " + fin, depth)
    ensures d.sujetStage != "" ==> ShowsText(MinimalisteCover(d, debut, fin, im, c), d.sujetStage, depth)
  {
    var cover := MinimalisteCover(d, debut, fin, im, c);
    var details := MinimalisteDetails(d, debut, fin);
    var student := CenteredParagraph(4, [StudentRun(d)]);
    assert student in details;
    TextInParagraph(cover, student, StudentRun(d), depth);
    var company := Text(CompanyName(d), [SizePt(12), Color(DarkGrey)]);
    var named := CenteredParagraph(4, [company]);
    assert named in details;
    TextInParagraph(cover, named, company, depth);
    var dates := Text(debut + " — " + fin, [SizePt(11), Color(Grey)]);
    var p := CenteredParagraph(4, [dates]);
    assert p in details;
    TextInParagraph(cover, p, dates, depth);
    if d.sujetStage != "" {
      var sujet := Text(d.sujetStage, [SizePt(14), Italic]);
      var q := CenteredParagraph(25, [sujet]);
      assert q in MinimalisteHeading(d, im, c);
      TextInParagraph(cover, q, sujet, depth);
    }
  }

  /** The gradient cover names the student, the company, the dates, and the subject inside its banner. */
  lemma {:induction false} GradientShows(d: ReportData, debut: string, fin: string, im: Imaging, c: Rgb, depth: nat)
    requires depth >= 1
    ensures ShowsText(GradientCover(d, debut, fin, im, c), StudentName(d), depth)
    ensures ShowsText(GradientCover(d, debut, fin, im, c), CompanyName(d), depth)
    ensures ShowsText(GradientCover(d, debut, fin, im, c), DatesText(debut, fin), depth)
    ensures d.sujetStage != "" ==> ShowsText(GradientCover(d, debut, fin, im, c), d.sujetStage, depth)
  {
    var cover := GradientCover(d, debut, fin, im, c);
    var details := GradientDetails(d, debut, fin, c);
    var student := CenteredParagraph(4, [StudentRun(d)]);
    assert student in details;
    TextInParagraph(cover, student, StudentRun(d), depth);
    var company := Text(CompanyName(d), [Bold, SizePt(13), Color(c)]);
    var named := CenteredParagraph(4, [company]);
    assert named in details;
    TextInParagraph(cover, named, company, depth);
    var dates := Text(DatesText(debut, fin), [SizePt(11)]);
    var p := CenteredParagraph(10, [dates]);
    assert p in details;
    TextInParagraph(cover, p, dates, depth);
    if d.sujetStage != "" {
      assert Banner(d, 20, 8, 15, 13) in GradientHeading(d, im);
      BannerShowsSubject(cover, d, 20, 8, 15, 13, depth);
    }
  }

  /** The creative cover names the student, the company, the dates and the subject in quotation marks. */
  lemma {:induction false} CreativeShows(d: ReportData, debut: string, fin: string, im: Imaging, c: Rgb, depth: nat)
    ensures ShowsText(CreativeCover(d, debut, fin, im, c), StudentName(d), depth)
    ensures ShowsText(CreativeCover(d, debut, fin, im, c), CompanyName(d), depth)
    ensures ShowsText(CreativeCover(d, debut, fin, im, c), debut + "  —  " + fin, depth)
    ensures d.sujetStage != "" ==> ShowsText(CreativeCover(d, debut, fin, im, c), Quoted(d.sujetStage), depth)
  {
    var cover := CreativeCover(d, debut, fin, im, c);
    var details := CreativeDetails(d, debut, fin, c);
    var student := CenteredParagraph(4, [StudentRun(d)]);
    assert student in details;
    TextInParagraph(cover, student, StudentRun(d), depth);
    var company := Text(CompanyName(d), [Bold, SizePt(13), Color(c)]);
    var named := CenteredParagraph(4, [company]);
    assert named in details;
    TextInParagraph(cover, named, company, depth);
    var dates := Text(debut + "  —  " + fin, [SizePt(10), Color(DarkGrey)]);
    var p := CenteredParagraph(8, [dates]);
    assert p in details;
    TextInParagraph(cover, p, dates, depth);
    if d.sujetStage != "" {
      var sujet := Text(Quoted(d.sujetStage), [SizePt(13), Italic]);
      var q := CenteredParagraph(15, [sujet]);
      assert q in CreativeHeading(d, im, c);
      TextInParagraph(cover, q, sujet, depth);
    }
  }

  /** The pro cover names the student and the subject in the body, the company and the dates in its information table. */
  lemma {:induction false} ProShows(d: ReportData, debut: string, fin: string, im: Imaging, c: Rgb, depth: nat)
    requires depth >= 1
    ensures ShowsText(ProCover(d, debut, fin, im, c), StudentName(d), depth)
    ensures ShowsText(ProCover(d, debut, fin, im, c), CompanyName(d), depth)
    ensures ShowsText(ProCover(d, debut, fin, im, c), debut + " — " + fin, depth)
    ensures d.sujetStage != "" ==> ShowsText(ProCover(d, debut, fin, im, c), d.sujetStage, depth)
  {
    var cover := ProCover(d, debut, fin, im, c);
    var details := ProDetails(d, debut, fin);
    var student := CenteredParagraph(4, [StudentRun(d)]);
    assert student in details;
    TextInParagraph(cover, student, StudentRun(d), depth);
    var info := ProInfoTable(d, debut, fin);
    assert info in details;
    var company := Text(CompanyName(d), [SizePt(12), Bold]);
    var row0 := InfoRow("Entreprise", company);
    TextInParagraph(row0[1].blocks, row0[1].blocks[0], company, depth - 1);
    TextInCell(cover, info, row0, row0[1], CompanyName(d), depth);
    var dates := Text(debut + " — " + fin, [SizePt(11)]);
    var row1 := InfoRow("Période", dates);
    TextInParagraph(row1[1].blocks, row1[1].blocks[0], dates, depth - 1);
    TextInCell(cover, info, row1, row1[1], debut + " — " + fin, depth);
    if d.sujetStage != "" {
      var sujet := Text(d.sujetStage, [SizePt(14), Italic]);
      var q := CenteredParagraph(15, [sujet]);
      assert q in ProHeading(d, im, c);
      TextInParagraph(cover, q, sujet, depth);
    }
  }
  /**
   * The footer line of the pro cover joins company and town with " — " when
   * the town is given and is the bare company name otherwise, so it is blank
   * exactly when both are.
   */
  lemma {:induction false} ProFooterMayBeBlank(d: ReportData)
    ensures d.entrepriseVille != "" ==> ProFooterText(d) == d.entrepriseNom + " — " + d.entrepriseVille
    ensures d.entrepriseVille == "" ==> ProFooterText(d) == d.entrepriseNom
    ensures ProFooterText(d) == "" <==> d.entrepriseNom == "" && d.entrepriseVille == ""
  {
  }
}
