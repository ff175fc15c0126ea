// The report assembler: an A4 page with a different first page, the styles,
// the two dates and the duration derived once, the optional cover and its
// page break, the header and the footer, then the table of contents, thanks
// and abstract each behind its own flag, the chapters always, and the
// annexes behind theirs.
module Report {
  import opened Wrappers
  import opened Document
  import opened Schemas
  import opened Images
  import opened Styles
  import opened Dates
  import opened HeaderFooter
  import opened Toc
  import opened Sections
  import opened CoverParts
  import opened CoverRegistry

  // ---------------------------------------------------------------------
  // What the report holds
  // ---------------------------------------------------------------------

  /** The model the registry is asked for. */
  function ReportModel(d: ReportData): CoverModel
  {
    CoverModelOf(d.coverModel)
  }

  /** The formatted start date handed to the cover. */
  function StartFr(d: ReportData): string
  {
    FormatDateFr(d.dateDebut)
  }

  /** The formatted end date handed to the cover. */
  function EndFr(d: ReportData): string
  {
    FormatDateFr(d.dateFin)
  }

  /** The cover and its page break when the flag is set, nothing otherwise; None where the cover raises. */
  function CoverStep(d: ReportData, im: Imaging): Option<seq<Block>>
  {
    if !d.includeCover then Some([])
    else match CoverBlocks(ReportModel(d), d, StartFr(d), EndFr(d), im)
      case None => None
      case Some(cover) => Some(cover + [PageBreak])
  }

  /** The table of contents section, behind its flag. */
  function TocPart(d: ReportData): seq<Block>
  {
    if d.includeToc then TocSectionBlocks(d) else []
  }

  /** The thanks section, behind its flag. */
  function ThanksPart(d: ReportData): seq<Block>
  {
    if d.includeThanks then ThanksBlocks(d) else []
  }

  /** The abstract section, behind its flag. */
  function AbstractPart(d: ReportData): seq<Block>
  {
    if d.includeAbstract then AbstractBlocks else []
  }

  /** The sections before the chapters. */
  function BeforeChapters(d: ReportData): seq<Block>
  {
    TocPart(d) + ThanksPart(d) + AbstractPart(d)
  }

  /** The chapters, numbered from 1 by position, whatever the flags say. */
  function Chapters(d: ReportData): seq<Block>
  {
    ChaptersBlocks(d.chapters, |d.chapters|)
  }

  /** The annexes, behind their flag. */
  function AnnexesPart(d: ReportData): seq<Block>
  {
    if d.includeAnnexes then AnnexesBlocks else []
  }

  /** Everything the body holds after the cover step. */
  function AfterCover(d: ReportData): seq<Block>
  {
    BeforeChapters(d) + Chapters(d) + AnnexesPart(d)
  }

  /** The document body, or None where the report raises: the style step first, then the cover. */
  function ReportBody(d: ReportData, im: Imaging): Option<seq<Block>>
  {
    if SetupDocumentStyles(d.style).None? then None
    else match CoverStep(d, im)
      case None => None
      case Some(front) => Some(front + AfterCover(d))
  }

  // ---------------------------------------------------------------------
  // The assembler
  // ---------------------------------------------------------------------

  /** The cover step: the generator the model selects, then one page break. */
  method AddCoverStep(body: Container, d: ReportData, debutFr: string, finFr: string, duree: string, im: Imaging) returns (ok: bool)
    requires debutFr == StartFr(d) && finFr == EndFr(d)
    modifies body
    ensures ok <==> CoverStep(d, im).Some?
    ensures ok ==> body.blocks == old(body.blocks) + CoverStep(d, im).value
  {
    ok := true;
    if d.includeCover {
      ok := AddSelectedCover(body, CoverModelOf(d.coverModel), d, debutFr, finFr, duree, im);
    }
  }

  /** The cover step for the model the registry selects, in terms of that model's cover. */
  lemma {:induction false} CoverStepWith(d: ReportData, im: Imaging, m: CoverModel)
    requires d.includeCover && m == ReportModel(d)
    ensures CoverStep(d, im).Some? <==> CoverBlocks(m, d, StartFr(d), EndFr(d), im).Some?
    ensures CoverStep(d, im).Some? ==> CoverStep(d, im).value == CoverBlocks(m, d, StartFr(d), EndFr(d), im).value + [PageBreak]
  {
  }

  /** With the flag set: the generator of model `m`, the one the registry selects, then one page break. */
  method AddSelectedCover(body: Container, m: CoverModel, d: ReportData, debutFr: string, finFr: string, duree: string, im: Imaging) returns (ok: bool)
    requires d.includeCover && m == ReportModel(d)
    requires debutFr == StartFr(d) && finFr == EndFr(d)
    modifies body
    ensures ok <==> CoverStep(d, im).Some?
    ensures ok ==> body.blocks == old(body.blocks) + CoverStep(d, im).value
  {
    CoverStepWith(d, im, m);
    ok := GenerateCover(body, m, d, debutFr, finFr, duree, im);
    if ok {
      body.Add(PageBreak);
    }
  }

  /** The table of contents, thanks and abstract sections, each behind its flag. */
  method AddFrontSections(body: Container, d: ReportData)
    modifies body
    ensures body.blocks == old(body.blocks) + BeforeChapters(d)
  {
    ghost var b0 := body.blocks;
    if d.includeToc {
      GenerateTocSection(body, d);
    }
    ghost var b1 := body.blocks;
    if d.includeThanks {
      GenerateThanksSection(body, d);
    }
    ghost var b2 := body.blocks;
    if d.includeAbstract {
      GenerateAbstractSection(body);
    }
    AppendThree(b0, b1, b2, body.blocks, TocPart(d), ThanksPart(d), AbstractPart(d));
  }

  /** The sections after the header and footer, each behind its own flag but the chapters. */
  method AddSections(body: Container, d: ReportData)
    modifies body
    ensures body.blocks == old(body.blocks) + AfterCover(d)
  {
    ghost var b0 := body.blocks;
    AddFrontSections(body, d);
    ghost var b1 := body.blocks;
    GenerateChapters(body, d);
    ghost var b2 := body.blocks;
    if d.includeAnnexes {
      GenerateAnnexesSection(body);
    }
    AppendThree(b0, b1, b2, body.blocks, BeforeChapters(d), Chapters(d), AnnexesPart(d));
  }

  /** Three pieces appended one after the other are appended all at once. */
  lemma {:induction false} AppendThree(b0: seq<Block>, b1: seq<Block>, b2: seq<Block>, b3: seq<Block>, p1: seq<Block>, p2: seq<Block>, p3: seq<Block>)
    requires b1 == b0 + p1 && b2 == b1 + p2 && b3 == b2 + p3
    ensures b3 == b0 + (p1 + p2 + p3)
  {
  }

  /** The new document's one section: A4, the page margins, a different first page. */
  method OpenSection(d: ReportData) returns (section: Section)
    ensures fresh(section)
    ensures section.pageWidthCm == 21.0 && section.pageHeightCm == 29.7
    ensures section.margins == (d.page.marginTop, d.page.marginBottom, d.page.marginLeft, d.page.marginRight)
    ensures section.differentFirstPage
    ensures section.header == [EmptyParagraph] && section.footer == [EmptyParagraph]
  {
    section := new Section();
    section.pageWidthCm, section.pageHeightCm := 21.0, 29.7;
    section.margins := (d.page.marginTop, d.page.marginBottom, d.page.marginLeft, d.page.marginRight);
    section.differentFirstPage := true;
  }

  /**
   * `generate_report`: a new document and its one section, set up and filled
   * step by step. `ok` is false where the report raises; the document is
   * then given up. Saving the document to bytes is not part of this model.
   */
  method GenerateReport(d: ReportData, im: Imaging) returns (ok: bool, body: Container, section: Section, styles: Option<StyleSheet>)
    ensures fresh(body) && fresh(section)
    ensures styles == SetupDocumentStyles(d.style)
    ensures ok <==> styles.Some? && CoverStep(d, im).Some?
    ensures ok ==> body.blocks == CoverStep(d, im).value + AfterCover(d)
    ensures ok ==> section.pageWidthCm == 21.0 && section.pageHeightCm == 29.7
    ensures ok ==> section.margins == (d.page.marginTop, d.page.marginBottom, d.page.marginLeft, d.page.marginRight)
    ensures ok ==> section.differentFirstPage
    ensures ok ==> section.header == AfterSetup([EmptyParagraph], HeaderTable(d.logos, im))
    ensures ok ==> section.footer == AfterSetup([EmptyParagraph], FooterTable(d))
  {
    body := new Container();
    section := OpenSection(d);
    styles := SetupDocumentStyles(d.style);
    if styles.None? {
      ok := false;
      return;
    }
    ok := CoverThenSections(body, section, d, im);
  }

  /**
   * The steps after the styles: the dates, the cover step, the header and
   * footer, then the sections. Nothing after the cover step runs when it
   * raises.
   */
  method CoverThenSections(body: Container, section: Section, d: ReportData, im: Imaging) returns (ok: bool)
    requires body.blocks == []
    modifies body, section
    ensures ok <==> CoverStep(d, im).Some?
    ensures ok ==> body.blocks == CoverStep(d, im).value + AfterCover(d)
    ensures ok ==> section.header == AfterSetup(old(section.header), HeaderTable(d.logos, im))
    ensures ok ==> section.footer == AfterSetup(old(section.footer), FooterTable(d))
    ensures section.pageWidthCm == old(section.pageWidthCm) && section.pageHeightCm == old(section.pageHeightCm)
    ensures section.margins == old(section.margins) && section.differentFirstPage == old(section.differentFirstPage)
  {
    var duree := CalculateDuration(d.dateDebut, d.dateFin);
    var debutFr := FormatDateFr(d.dateDebut);
    var finFr := FormatDateFr(d.dateFin);
    ok := AddCoverStep(body, d, debutFr, finFr, duree, im);
    if !ok {
      return;
    }
    ghost var front := body.blocks;
    EmptyFront(front, [], CoverStep(d, im).value);
    section.SetupHeaderWithLogos(d, im);
    section.SetupFooterWithPageNumber(d);
    AddSections(body, d);
  }

  /** What `GenerateReport` leaves in the body is the report body: None exactly where it gives up. */
  lemma {:induction false} ReportBodyOfSteps(d: ReportData, im: Imaging)
    ensures ReportBody(d, im).Some? <==> SetupDocumentStyles(d.style).Some? && CoverStep(d, im).Some?
    ensures ReportBody(d, im).Some? ==> ReportBody(d, im).value == CoverStep(d, im).value + AfterCover(d)
  {
  }

  // ---------------------------------------------------------------------
  // Properties
  // ---------------------------------------------------------------------

  /**
   * The report raises exactly when the style step does: every cover but
   * the luxe one reads only the first heading colour, which the style step
   * has already read.
   */
  lemma {:induction false} ReportRaisesOnlyOnStyles(d: ReportData, im: Imaging)
    ensures ReportBody(d, im).None? <==> SetupDocumentStyles(d.style).None?
  {
    if SetupDocumentStyles(d.style).Some? {
      CoverAfterStylesSucceeds(ReportModel(d), d, StartFr(d), EndFr(d), im);
    }
  }

  /**
   * With the flag set the body opens with the selected cover and exactly one
   * page break after it; without it the body opens with the first section.
   */
  lemma {:induction false} CoverOpensReport(d: ReportData, im: Imaging)
    requires ReportBody(d, im).Some?
    ensures d.includeCover ==>
      var cover := CoverBlocks(ReportModel(d), d, StartFr(d), EndFr(d), im).value;
      |cover| < |ReportBody(d, im).value| && ReportBody(d, im).value[..|cover| + 1] == cover + [PageBreak]
    ensures !d.includeCover ==> ReportBody(d, im).value == AfterCover(d)
  {
    ReportBodyOfSteps(d, im);
    if d.includeCover {
      CoverStepWith(d, im, ReportModel(d));
      OpensWith(ReportBody(d, im).value, CoverStep(d, im).value, AfterCover(d),
        CoverBlocks(ReportModel(d), d, StartFr(d), EndFr(d), im).value);
    } else {
      EmptyFront(ReportBody(d, im).value, CoverStep(d, im).value, AfterCover(d));
    }
  }

  /** A body made of a cover, its page break and the rest opens with the cover and the break. */
  lemma {:induction false} OpensWith(body: seq<Block>, front: seq<Block>, rest: seq<Block>, cover: seq<Block>)
    requires body == front + rest && front == cover + [PageBreak]
    ensures |cover| < |body| && body[..|cover| + 1] == cover + [PageBreak]
  {
    assert body[..|cover| + 1] == front;
  }

  lemma {:induction false} EmptyFront(body: seq<Block>, front: seq<Block>, rest: seq<Block>)
    requires body == front + rest && front == []
    ensures body == rest
  {
  }

  lemma {:induction false} PrefixOfAppend(a: seq<Block>, b: seq<Block>)
    ensures |a| <= |a + b| && (a + b)[..|a|] == a
  {
  }

  lemma {:induction false} MiddleOfAppend(a: seq<Block>, b: seq<Block>, c: seq<Block>, e: seq<Block>)
    ensures |a| + |b| + |c| <= |a + (b + c + e)|
    ensures (a + (b + c + e))[|a| + |b|..|a| + |b| + |c|] == c
  {
    assert a + (b + c + e) == (a + b) + c + e;
  }

  /** A block list without a page break has none to count. */
  lemma {:induction false} NoPageBreaks(bs: seq<Block>)
    requires forall k :: 0 <= k < |bs| ==> !bs[k].PageBreak?
    ensures PageBreaks(bs) == 0
    decreases |bs|
  {
    if bs != [] {
      NoPageBreaks(bs[1..]);
    }
  }

  /** The table of contents section ends with its one page break. */
  lemma {:induction false} TocSectionBreaks(d: ReportData)
    ensures PageBreaks(TocSectionBlocks(d)) == 1
  {
    var heading := [CentredHeading("TABLE DES MATIÈRES"), EmptyParagraph];
    var entries := EntryBlocks(TocEntries(d));
    NoPageBreaks(entries);
    NoPageBreaks(heading);
    NoPageBreaks([PageBreak][1..]);
    PageBreaksAppend(heading, entries);
    PageBreaksAppend(heading + entries, [PageBreak]);
  }

  /** The thanks section ends with its one page break. */
  lemma {:induction false} ThanksSectionBreaks(d: ReportData)
    ensures PageBreaks(ThanksBlocks(d)) == 1
  {
    var thanks := ThanksBlocks(d);
    NoPageBreaks(thanks[..|thanks| - 1]);
    NoPageBreaks([PageBreak][1..]);
    PageBreaksAppend(thanks[..|thanks| - 1], [PageBreak]);
    assert thanks == thanks[..|thanks| - 1] + [PageBreak];
  }

  /** The abstract section ends with its one page break; the annexes hold none. */
  lemma {:induction false} AbstractAndAnnexesBreaks()
    ensures PageBreaks(AbstractBlocks) == 1
    ensures PageBreaks(AnnexesBlocks) == 0
  {
    NoPageBreaks(AbstractBlocks[..5]);
    NoPageBreaks([PageBreak][1..]);
    PageBreaksAppend(AbstractBlocks[..5], [PageBreak]);
    assert AbstractBlocks == AbstractBlocks[..5] + [PageBreak];
    NoPageBreaks(AnnexesBlocks);
  }

  /**
   * After the cover step the body holds one page break per included table
   * of contents, thanks and abstract section and one per chapter: the
   * annexes end the report without one.
   */
  lemma {:induction false} SectionsPageBreaks(d: ReportData)
    ensures PageBreaks(AfterCover(d)) ==
      (if d.includeToc then 1 else 0) + (if d.includeThanks then 1 else 0) + (if d.includeAbstract then 1 else 0)
      + |d.chapters|
  {
    TocSectionBreaks(d);
    ThanksSectionBreaks(d);
    AbstractAndAnnexesBreaks();
    ChaptersPageBreaks(d.chapters, |d.chapters|);
    assert PageBreaks([]) == 0;
    PageBreaksAppend(TocPart(d), ThanksPart(d));
    PageBreaksAppend(TocPart(d) + ThanksPart(d), AbstractPart(d));
    PageBreaksAppend(BeforeChapters(d), Chapters(d));
    PageBreaksAppend(BeforeChapters(d) + Chapters(d), AnnexesPart(d));
  }

  /**
   * Whatever the cover step put first (`GenerateReport` builds the body as
   * that cover step followed by `AfterCover`), the chapters sit right after
   * the sections before them, and their headings, level and text, are the
   * chapter entries the table of contents lists.
   */
  lemma {:induction false} ChaptersMatchToc(front: seq<Block>, d: ReportData)
    ensures var body := front + AfterCover(d);
      var k := |front| + |BeforeChapters(d)|;
      k + |Chapters(d)| <= |body| && body[k..k + |Chapters(d)|] == Chapters(d)
      && HeadingsOf(body[k..k + |Chapters(d)|]) == Titles(ChaptersEntries(d.chapters, |d.chapters|, FirstChapterPage(d)))
  {
    MiddleOfAppend(front, BeforeChapters(d), Chapters(d), AnnexesPart(d));
    ChaptersHeadingsAreToc(d.chapters, |d.chapters|, FirstChapterPage(d));
  }

  /**
   * For valid ISO dates the cover of the report names the student and writes
   * the dates in their long French form ("5 mars 2024"), the way the selected
   * model writes dates, at most two tables deep.
   */
  lemma {:induction false} CoverShowsLongDates(d: ReportData, im: Imaging, start: Date, end: Date)
    requires ValidDate(start) && ValidDate(end)
    requires d.dateDebut == IsoString(start) && d.dateFin == IsoString(end)
    requires d.includeCover && ReportBody(d, im).Some?
    ensures var cover := CoverBlocks(ReportModel(d), d, StartFr(d), EndFr(d), im).value;
      ShowsText(cover, StudentName(d), 2) && ShowsText(cover, DatesLine(ReportModel(d), LongForm(start), LongForm(end)), 2)
  {
    FormatIsoDate(start);
    FormatIsoDate(end);
    assert StartFr(d) == LongForm(start) && EndFr(d) == LongForm(end);
    CoverShowsReport(ReportModel(d), d, StartFr(d), EndFr(d), im, 2);
  }
}
