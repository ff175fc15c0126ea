// The twelve cover pages. Each `generate_cover_*` reads the primary colour
// from the level-1 heading colour (raising when it is unreadable; the luxe
// cover uses fixed colours instead), then appends its paragraphs and tables.
// Every cover is given twice: as the block sequence it appends (a function
// on the request), and as a method that builds that sequence step by step,
// branch by branch and loop by loop as the generator does, proved to append
// exactly the function's blocks.
module Covers {
  import opened Wrappers
  import opened Text
  import opened Document
  import opened Schemas
  import opened Colors
  import opened Images
  import opened TableXml
  import opened CoverParts

  /** `hex_to_rgb(data.style.title1_color)`, None where it raises. */
  function Primary(d: ReportData): Option<Rgb>
  {
    HexToRgb(d.style.title1Color)
  }

  /** A new table with its borders removed: `add_table` then `remove_table_borders`. */
  method BorderlessXml() returns (xml: seq<TblChild>)
    ensures xml == BordersRemoved(NewTableXml)
  {
    var t := new TableElement(NewTableXml);
    t.RemoveTableBorders();
    xml := t.children;
  }

  /** A new table framed by `set_table_border(table, colour, size)`. */
  method FramedXml(colourHex: string, size: string) returns (xml: seq<TblChild>)
    ensures xml == BorderSet(NewTableXml, colourHex, size)
  {
    var t := new TableElement(NewTableXml);
    t.SetTableBorder(colourHex, size);
    xml := t.children;
  }

  /** A paragraph added under `if cond:`. */
  method OptionalBlock(cond: bool, b: Block) returns (bs: seq<Block>)
    ensures cond ==> bs == [b]
    ensures !cond ==> bs == []
  {
    bs := [];
    if cond {
      bs := [b];
    }
  }

  /**
   * `if has_image: try: <new paragraph formatted by fmt>; add_picture(...)`:
   * the paragraph is created before decoding, so it stays when decoding fails.
   */
  method ImageParagraph(fmt: seq<ParaTag>, im: Imaging, o: Option<string>, heightCm: real) returns (bs: seq<Block>)
    ensures bs == ImageBlocks(fmt, im, o, heightCm)
  {
    bs := [];
    if HasImage(o) {
      bs := [Paragraph(fmt, PictureRuns(im, o.value, heightCm))];
    }
  }

  /** `for _ in range(n)`, adding the same paragraph each time. */
  method Repeated(b: Block, n: nat) returns (bs: seq<Block>)
    ensures bs == Repeat(b, n)
  {
    bs := [];
    for i := 0 to n
      invariant bs == Repeat(b, i)
    {
      bs := bs + [b];
    }
  }

  /** Spacers then an image paragraph, added only when the image passes the presence test. */
  method SpacedImageParagraph(spacers: seq<Block>, fmt: seq<ParaTag>, im: Imaging, o: Option<string>, heightCm: real) returns (bs: seq<Block>)
    ensures bs == SpacedImage(spacers, fmt, im, o, heightCm)
  {
    bs := [];
    if HasImage(o) {
      bs := spacers + [Paragraph(fmt, PictureRuns(im, o.value, heightCm))];
    }
  }

  /** A borderless two-cell logo table: each logo that passes the presence test fills its cell's first paragraph. */
  method LogoPairTable(settings: seq<TableTag>, fmt0: seq<ParaTag>, fmt1: seq<ParaTag>, im: Imaging, l: LogosConfig, heightCm: real) returns (t: Block)
    ensures t == LogoPair(settings, fmt0, fmt1, im, l, heightCm)
  {
    var xml := BorderlessXml();
    var left, right := OneParagraphCell(EmptyParagraph), OneParagraphCell(EmptyParagraph);
    if HasImage(l.logoEcole) {
      left := OneParagraphCell(Paragraph(fmt0, PictureRuns(im, l.logoEcole.value, heightCm)));
    }
    if HasImage(l.logoEntreprise) {
      right := OneParagraphCell(Paragraph(fmt1, PictureRuns(im, l.logoEntreprise.value, heightCm)));
    }
    var row := [left, right];
    t := Table(settings, xml, [row]);
  }

  const Centred: seq<ParaTag> := [Aligned(AlignCenter), NoIndent]

  /** The paragraph format of the doc-level lines built with `doc.add_paragraph()` and two settings. */
  function FlushLeft(spaceAfter: nat): seq<ParaTag>
  {
    [NoIndent, SpaceAfterPt(spaceAfter)]
  }

  /** The two-cell tutor table of the classique and moderne covers. */
  function TutorCell(caption: string, name: string): Cell
  {
    OneParagraphCell(Paragraph(Centred, [Text(caption + "\n", [SizePt(10)]), Text(Or(name, "[Nom]"), [Bold, SizePt(12)])]))
  }

  const TutorSettings: seq<TableTag> := [TableAlign(AlignCenter), NoAutofit, ColumnWidthCm(0, 7.0), ColumnWidthCm(1, 7.0)]

  function TutorTable(d: ReportData): Block
  {
    Table(TutorSettings, BordersRemoved(NewTableXml),
      [[TutorCell("Tuteur entreprise", d.tuteurNom), TutorCell("Tuteur académique", d.tuteurAcademiqueNom)]])
  }

  // ---------------------------------------------------------------------
  // classique
  // ---------------------------------------------------------------------

  const ClassiqueLogoSettings: seq<TableTag> :=
    [TableAlign(AlignCenter), NoAutofit, ColumnWidthCm(0, 5.0), ColumnWidthCm(1, 6.0), ColumnWidthCm(2, 5.0)]

  /** Three cells: school logo left, nothing centre, company logo right, 2 cm high. */
  function ClassiqueLogoTable(d: ReportData, im: Imaging): Block
  {
    Table(ClassiqueLogoSettings, BordersRemoved(NewTableXml),
      [[OneParagraphCell(LogoParagraph(Centred, im, d.logos.logoEcole, 2.0)),
        OneParagraphCell(EmptyParagraph),
        OneParagraphCell(LogoParagraph(Centred, im, d.logos.logoEntreprise, 2.0))]])
  }

  /** The classique cover down to the central image. */
  function ClassiqueHeading(d: ReportData, im: Imaging, c: Rgb): seq<Block>
  {
    When(HasLogo(d.logos), [ClassiqueLogoTable(d, im)])
    + [CenteredParagraph(25, [])]
    + [CenteredParagraph(6, [TitleRun(28, c)])]
    + When(d.sujetStage != "", [CenteredParagraph(15, [Text(d.sujetStage, [SizePt(14), Italic])])])
    + ImageBlocks(CenteredFormat(12), im, d.logos.imageCentrale, 3.0)
  }

  /** The rest of the classique cover: student, school, company, dates and the tutor table. */
  function ClassiqueDetails(d: ReportData, debut: string, fin: string): seq<Block>
  {
    [CenteredParagraph(18, [])]
    + [CenteredParagraph(4, [StudentRun(d)])]
    + [CenteredParagraph(4, [Text(FormationName(d), [SizePt(12)])])]
    + [CenteredParagraph(20, [Text(SchoolYear(d, " — "), [SizePt(12)])])]
    + [CenteredParagraph(4, [Text("Stage réalisé chez " + CompanyName(d), [SizePt(14)])])]
    + When(d.entrepriseVille != "", [CenteredParagraph(6, [Text(d.entrepriseVille, [SizePt(12)])])])
    + [CenteredParagraph(15, [Text(DatesText(debut, fin), [SizePt(12)])])]
    + [TutorTable(d)]
  }

  function ClassiqueCover(d: ReportData, debut: string, fin: string, im: Imaging, c: Rgb): seq<Block>
  {
    ClassiqueHeading(d, im, c) + ClassiqueDetails(d, debut, fin)
  }

  method GenerateCoverClassique(doc: Container, d: ReportData, debut: string, fin: string, duree: string, im: Imaging) returns (ok: bool)
    modifies doc
    ensures ok <==> Primary(d).Some?
    ensures ok ==> doc.blocks == old(doc.blocks) + ClassiqueCover(d, debut, fin, im, Primary(d).value)
    ensures !ok ==> doc.blocks == old(doc.blocks)
  {
    var primary := HexToRgb(d.style.title1Color);
    if primary.None? {
      return false;
    }
    var c := primary.value;
    var logos: seq<Block> := [];
    if HasImage(d.logos.logoEcole) || HasImage(d.logos.logoEntreprise) {
      var xml := BorderlessXml();
      var left, right := OneParagraphCell(EmptyParagraph), OneParagraphCell(EmptyParagraph);
      if HasImage(d.logos.logoEcole) {
        left := OneParagraphCell(Paragraph(Centred, PictureRuns(im, d.logos.logoEcole.value, 2.0)));
      }
      if HasImage(d.logos.logoEntreprise) {
        right := OneParagraphCell(Paragraph(Centred, PictureRuns(im, d.logos.logoEntreprise.value, 2.0)));
      }
      var row := [left, OneParagraphCell(EmptyParagraph), right];
      logos := [Table(ClassiqueLogoSettings, xml, [row])];
    }
    var sujet := OptionalBlock(d.sujetStage != "", CenteredParagraph(15, [Text(d.sujetStage, [SizePt(14), Italic])]));
    var image := ImageParagraph(CenteredFormat(12), im, d.logos.imageCentrale, 3.0);
    var heading := logos
      + [CenteredParagraph(25, [])]
      + [CenteredParagraph(6, [TitleRun(28, c)])]
      + sujet
      + image;
    assert heading == ClassiqueHeading(d, im, c);
    var ville := OptionalBlock(d.entrepriseVille != "", CenteredParagraph(6, [Text(d.entrepriseVille, [SizePt(12)])]));
    var tutors := BorderlessXml();
    var cells := [TutorCell("Tuteur entreprise", d.tuteurNom), TutorCell("Tuteur académique", d.tuteurAcademiqueNom)];
    var details := [CenteredParagraph(18, [])]
      + [CenteredParagraph(4, [StudentRun(d)])]
      + [CenteredParagraph(4, [Text(FormationName(d), [SizePt(12)])])]
      + [CenteredParagraph(20, [Text(SchoolYear(d, " — "), [SizePt(12)])])]
      + [CenteredParagraph(4, [Text("Stage réalisé chez " + CompanyName(d), [SizePt(14)])])]
      + ville
      + [CenteredParagraph(15, [Text(DatesText(debut, fin), [SizePt(12)])])]
      + [Table(TutorSettings, tutors, [cells])];
    assert details == ClassiqueDetails(d, debut, fin);
    doc.AddAll(heading + details);
    return true;
  }

  // ---------------------------------------------------------------------
  // moderne
  // ---------------------------------------------------------------------

  const BannerSettings: seq<TableTag> := [TableAlign(AlignCenter), NoAutofit, ColumnWidthCm(0, 16.0)]

  /**
   * A one-cell borderless banner shaded in the heading colour: the white
   * title, then the white subject when there is one.
   */
  function Banner(d: ReportData, before: int, after: int, sujetAfter: int, sujetPt: int): Block
  {
    Table(BannerSettings, BordersRemoved(NewTableXml),
      [[Shaded(Cell([],
          [Paragraph([Aligned(AlignCenter), NoIndent, SpaceBeforePt(before), SpaceAfterPt(after)], [Text("RAPPORT DE STAGE", [Bold, SizePt(28), Color(White)])])]
          + When(d.sujetStage != "", [CellParagraph(sujetAfter, [Aligned(AlignCenter)], [Text(d.sujetStage, [SizePt(sujetPt), Color(White), Italic])])])),
        d.style.title1Color)]])
  }

  method BuildBanner(d: ReportData, before: int, after: int, sujetAfter: int, sujetPt: int) returns (t: Block)
    ensures t == Banner(d, before, after, sujetAfter, sujetPt)
  {
    var xml := BorderlessXml();
    var sujet := OptionalBlock(d.sujetStage != "", CellParagraph(sujetAfter, [Aligned(AlignCenter)], [Text(d.sujetStage, [SizePt(sujetPt), Color(White), Italic])]));
    var blocks := [Paragraph([Aligned(AlignCenter), NoIndent, SpaceBeforePt(before), SpaceAfterPt(after)], [Text("RAPPORT DE STAGE", [Bold, SizePt(28), Color(White)])])] + sujet;
    var cell := SetCellShading(Cell([], blocks), LStrip(d.style.title1Color, '#'));
    t := Table(BannerSettings, xml, [[cell]]);
  }

  const PairSettings: seq<TableTag> := [TableAlign(AlignCenter), NoAutofit, ColumnWidthCm(0, 7.0), ColumnWidthCm(1, 7.0)]

  /** The moderne cover down to the central image. */
  function ModerneHeading(d: ReportData, im: Imaging): seq<Block>
  {
    [Banner(d, 18, 6, 12, 14)]
    + [CenteredParagraph(15, [])]
    + When(HasLogo(d.logos), [LogoPair(PairSettings, Centred, Centred, im, d.logos, 2.0)])
    + ImageBlocks(CenteredFormat(12), im, d.logos.imageCentrale, 3.0)
  }

  /** The rest of the moderne cover. */
  function ModerneDetails(d: ReportData, debut: string, fin: string, c: Rgb): seq<Block>
  {
    [CenteredParagraph(18, [])]
    + [CenteredParagraph(4, [StudentRun(d)])]
    + [CenteredParagraph(4, [Text(FormationName(d), [SizePt(12)])])]
    + [CenteredParagraph(15, [Text(SchoolYear(d, "  •  "), [SizePt(12)])])]
    + [CenteredParagraph(4, [Text(CompanyName(d), [Bold, SizePt(14), Color(c)])])]
    + When(d.entrepriseVille != "", [CenteredParagraph(6, [Text(d.entrepriseVille, [SizePt(12)])])])
    + [CenteredParagraph(15, [Text(DatesText(debut, fin), [SizePt(12)])])]
    + [TutorTable(d)]
  }

  function ModerneCover(d: ReportData, debut: string, fin: string, im: Imaging, c: Rgb): seq<Block>
  {
    ModerneHeading(d, im) + ModerneDetails(d, debut, fin, c)
  }

  /** The moderne cover's loop over the (caption, name) pairs, filling one tutor cell each. */
  method TutorCells(d: ReportData) returns (cells: seq<Cell>)
    ensures cells == TutorTable(d).rows[0]
  {
    var tutors := [("Tuteur entreprise", d.tuteurNom), ("Tuteur académique", d.tuteurAcademiqueNom)];
    cells := [OneParagraphCell(EmptyParagraph), OneParagraphCell(EmptyParagraph)];
    for i := 0 to 2
      invariant |cells| == 2
      invariant forall j :: 0 <= j < i ==> cells[j] == TutorCell(tutors[j].0, tutors[j].1)
    {
      cells := cells[i := TutorCell(tutors[i].0, tutors[i].1)];
    }
  }

  method GenerateCoverModerne(doc: Container, d: ReportData, debut: string, fin: string, duree: string, im: Imaging) returns (ok: bool)
    modifies doc
    ensures ok <==> Primary(d).Some?
    ensures ok ==> doc.blocks == old(doc.blocks) + ModerneCover(d, debut, fin, im, Primary(d).value)
    ensures !ok ==> doc.blocks == old(doc.blocks)
  {
    var primary := HexToRgb(d.style.title1Color);
    if primary.None? {
      return false;
    }
    var c := primary.value;
    var banner := BuildBanner(d, 18, 6, 12, 14);
    var logos: seq<Block> := [];
    if HasImage(d.logos.logoEcole) || HasImage(d.logos.logoEntreprise) {
      var t := LogoPairTable(PairSettings, Centred, Centred, im, d.logos, 2.0);
      logos := [t];
    }
    var image := ImageParagraph(CenteredFormat(12), im, d.logos.imageCentrale, 3.0);
    var heading := [banner]
      + [CenteredParagraph(15, [])]
      + logos
      + image;
    assert heading == ModerneHeading(d, im);
    var ville := OptionalBlock(d.entrepriseVille != "", CenteredParagraph(6, [Text(d.entrepriseVille, [SizePt(12)])]));
    var tutorXml := BorderlessXml();
    var cells := TutorCells(d);
    var details := [CenteredParagraph(18, [])]
      + [CenteredParagraph(4, [StudentRun(d)])]
      + [CenteredParagraph(4, [Text(FormationName(d), [SizePt(12)])])]
      + [CenteredParagraph(15, [Text(SchoolYear(d, "  •  "), [SizePt(12)])])]
      + [CenteredParagraph(4, [Text(CompanyName(d), [Bold, SizePt(14), Color(c)])])]
      + ville
      + [CenteredParagraph(15, [Text(DatesText(debut, fin), [SizePt(12)])])]
      + [Table(TutorSettings, tutorXml, [cells])];
    assert details == ModerneDetails(d, debut, fin, c);
    doc.AddAll(heading + details);
    return true;
  }

  // ---------------------------------------------------------------------
  // What the covers show
  // ---------------------------------------------------------------------

  /** The classique cover names the student, the company ("Stage réalisé chez …"), the dates and the subject when there is one. */
  lemma {:induction false} ClassiqueShows(d: ReportData, debut: string, fin: string, im: Imaging, c: Rgb, depth: nat)
    ensures ShowsText(ClassiqueCover(d, debut, fin, im, c), StudentName(d), depth)
    ensures ShowsText(ClassiqueCover(d, debut, fin, im, c), "Stage réalisé chez " + CompanyName(d), depth)
    ensures ShowsText(ClassiqueCover(d, debut, fin, im, c), DatesText(debut, fin), depth)
    ensures d.sujetStage != "" ==> ShowsText(ClassiqueCover(d, debut, fin, im, c), d.sujetStage, depth)
  {
    var cover := ClassiqueCover(d, debut, fin, im, c);
    var details := ClassiqueDetails(d, debut, fin);
    var student := CenteredParagraph(4, [StudentRun(d)]);
    assert student in details;
    TextInParagraph(cover, student, StudentRun(d), depth);
    var company := Text("Stage réalisé chez " + CompanyName(d), [SizePt(14)]);
    var named := CenteredParagraph(4, [company]);
    assert named in details;
    TextInParagraph(cover, named, company, depth);
    var dates := Text(DatesText(debut, fin), [SizePt(12)]);
    var p := CenteredParagraph(15, [dates]);
    assert p in details;
    TextInParagraph(cover, p, dates, depth);
    if d.sujetStage != "" {
      var sujet := Text(d.sujetStage, [SizePt(14), Italic]);
      var q := CenteredParagraph(15, [sujet]);
      assert q in ClassiqueHeading(d, im, c);
      TextInParagraph(cover, q, sujet, depth);
    }
  }

  /** A banner in `bs` shows the subject, when there is one, one table down. */
  /** With a subject, the banner's one cell holds the subject paragraph. */
  lemma {:induction false} BannerCellHoldsSubject(d: ReportData, before: int, after: int, sujetAfter: int, sujetPt: int)
    requires d.sujetStage != ""
    ensures var t := Banner(d, before, after, sujetAfter, sujetPt);
      t.Table? && |t.rows| == 1 && |t.rows[0]| == 1 &&
      CellParagraph(sujetAfter, [Aligned(AlignCenter)], [Text(d.sujetStage, [SizePt(sujetPt), Color(White), Italic])]) in t.rows[0][0].blocks
  {
    var sp := CellParagraph(sujetAfter, [Aligned(AlignCenter)], [Text(d.sujetStage, [SizePt(sujetPt), Color(White), Italic])]);
    assert When(d.sujetStage != "", [sp]) == [sp];
  }

  lemma {:induction false} BannerShowsSubject(bs: seq<Block>, d: ReportData, before: int, after: int, sujetAfter: int, sujetPt: int, depth: nat)
    requires Banner(d, before, after, sujetAfter, sujetPt) in bs
    requires d.sujetStage != "" && depth >= 1
    ensures ShowsText(bs, d.sujetStage, depth)
  {
    var t := Banner(d, before, after, sujetAfter, sujetPt);
    var sujet := Text(d.sujetStage, [SizePt(sujetPt), Color(White), Italic]);
    var sp := CellParagraph(sujetAfter, [Aligned(AlignCenter)], [sujet]);
    BannerCellHoldsSubject(d, before, after, sujetAfter, sujetPt);
    var row := t.rows[0];
    var cell := row[0];
    TextInParagraph(cell.blocks, sp, sujet, depth - 1);
    TextInCell(bs, t, row, cell, d.sujetStage, depth);
  }

  /** The moderne cover names the student, the company, the dates, and the subject inside its banner. */
  lemma {:induction false} ModerneShows(d: ReportData, debut: string, fin: string, im: Imaging, c: Rgb, depth: nat)
    requires depth >= 1
    ensures ShowsText(ModerneCover(d, debut, fin, im, c), StudentName(d), depth)
    ensures ShowsText(ModerneCover(d, debut, fin, im, c), CompanyName(d), depth)
    ensures ShowsText(ModerneCover(d, debut, fin, im, c), DatesText(debut, fin), depth)
    ensures d.sujetStage != "" ==> ShowsText(ModerneCover(d, debut, fin, im, c), d.sujetStage, depth)
  {
    var cover := ModerneCover(d, debut, fin, im, c);
    var details := ModerneDetails(d, debut, fin, c);
    var student := CenteredParagraph(4, [StudentRun(d)]);
    assert student in details;
    TextInParagraph(cover, student, StudentRun(d), depth);
    var company := Text(CompanyName(d), [Bold, SizePt(14), Color(c)]);
    var named := CenteredParagraph(4, [company]);
    assert named in details;
    TextInParagraph(cover, named, company, depth);
    var dates := Text(DatesText(debut, fin), [SizePt(12)]);
    var p := CenteredParagraph(15, [dates]);
    assert p in details;
    TextInParagraph(cover, p, dates, depth);
    if d.sujetStage != "" {
      assert cover[0] == Banner(d, 18, 6, 12, 14);
      BannerShowsSubject(cover, d, 18, 6, 12, 14, depth);
    }
  }
  /** The classique cover opens with its logo table exactly when one of the two logos passes the presence test. */
  lemma {:induction false} ClassiqueLogoTableGated(d: ReportData, debut: string, fin: string, im: Imaging, c: Rgb)
    ensures var bs := ClassiqueCover(d, debut, fin, im, c);
      bs != [] && (bs[0].Table? <==> HasLogo(d.logos)) && (HasLogo(d.logos) ==> bs[0] == ClassiqueLogoTable(d, im))
  {
  }

  /**
   * The classique cover ends with the tutor table, whose cells give each
   * tutor's caption and name, "[Nom]" when the name is missing.
   */
  lemma {:induction false} ClassiqueTutors(d: ReportData, debut: string, fin: string, im: Imaging, c: Rgb)
    ensures var bs := ClassiqueCover(d, debut, fin, im, c);
      bs != [] && bs[|bs| - 1] == TutorTable(d)
      && ShowsText(bs, "Tuteur entreprise" + "\n", 1) && ShowsText(bs, Or(d.tuteurNom, "[Nom]"), 1)
      && ShowsText(bs, "Tuteur académique" + "\n", 1) && ShowsText(bs, Or(d.tuteurAcademiqueNom, "[Nom]"), 1)
  {
    var bs := ClassiqueCover(d, debut, fin, im, c);
    assert bs[|bs| - 1] == TutorTable(d);
    TutorTableShows(bs, d);
  }

  /** A tutor table in `bs` shows both captions and both names, one table down. */
  lemma {:induction false} TutorTableShows(bs: seq<Block>, d: ReportData)
    requires TutorTable(d) in bs
    ensures ShowsText(bs, "Tuteur entreprise" + "\n", 1) && ShowsText(bs, Or(d.tuteurNom, "[Nom]"), 1)
    ensures ShowsText(bs, "Tuteur académique" + "\n", 1) && ShowsText(bs, Or(d.tuteurAcademiqueNom, "[Nom]"), 1)
  {
    var t := TutorTable(d);
    TutorCellShows(bs, t, t.rows[0], 0, "Tuteur entreprise", d.tuteurNom);
    TutorCellShows(bs, t, t.rows[0], 1, "Tuteur académique", d.tuteurAcademiqueNom);
  }

  lemma {:induction false} TutorCellShows(bs: seq<Block>, t: Block, row: seq<Cell>, i: nat, caption: string, name: string)
    requires t in bs && t.Table? && row in t.rows && i < |row| && row[i] == TutorCell(caption, name)
    ensures ShowsText(bs, caption + "\n", 1) && ShowsText(bs, Or(name, "[Nom]"), 1)
  {
    var c := row[i];
    TextInParagraph(c.blocks, c.blocks[0], c.blocks[0].runs[0], 0);
    TextInParagraph(c.blocks, c.blocks[0], c.blocks[0].runs[1], 0);
    TextInCell(bs, t, row, c, caption + "\n", 1);
    TextInCell(bs, t, row, c, Or(name, "[Nom]"), 1);
  }
}
