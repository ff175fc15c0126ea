// The older single-file generator. Its report assembly is the modular one
// with the section bodies written out in place; what differs is the cover:
// the generator is chosen by a chain of name tests rather than looked up in
// the registry.
module LegacyGenerator {
  import opened Document
  import opened Schemas
  import opened Images
  import opened CoverRegistry
  import opened Report
  import opened Wrappers
  import opened Dates
  import opened Styles
  import opened HeaderFooter

  /**
   * The chain of name tests of the legacy cover step, `classique` in the
   * final `else`: it chooses the generator the registry lookup would.
   */
  method ChooseCover(name: string) returns (m: CoverModel)
    ensures m == CoverModelOf(name)
    ensures name in CoverGenerators ==> ModelName(m) == name
  {
    if name == "moderne" {
      m := Moderne;
    } else if name == "elegant" {
      m := Elegant;
    } else if name == "minimaliste" {
      m := Minimaliste;
    } else if name == "academique" {
      m := Academique;
    } else if name == "geometrique" {
      m := Geometrique;
    } else if name == "bicolore" {
      m := Bicolore;
    } else if name == "pro" {
      m := Pro;
    } else if name == "gradient" {
      m := Gradient;
    } else if name == "timeline" {
      m := Timeline;
    } else if name == "creative" {
      m := Creative;
    } else if name == "luxe" {
      m := Luxe;
    } else {
      m := Classique;
    }
  }

  /** The legacy cover step: the chosen generator, then one page break, all behind the cover flag. */
  method LegacyCoverStep(body: Container, d: ReportData, debutFr: string, finFr: string, duree: string, im: Imaging) returns (ok: bool)
    requires debutFr == StartFr(d) && finFr == EndFr(d)
    modifies body
    ensures ok <==> CoverStep(d, im).Some?
    ensures ok ==> body.blocks == old(body.blocks) + CoverStep(d, im).value
  {
    ok := true;
    if d.includeCover {
      var m := ChooseCover(d.coverModel);
      ok := AddSelectedCover(body, m, d, debutFr, finFr, duree, im);
    }
  }

  /**
   * The legacy `generate_report`: the same steps as the modular assembler,
   * with the cover chosen by the chain of name tests and the section bodies
   * written out in place (they are the modular section generators' bodies
   * verbatim). Every input gives the document `GenerateReport` gives.
   */
  method LegacyGenerateReport(d: ReportData, im: Imaging) returns (ok: bool, body: Container, section: Section, styles: Option<StyleSheet>)
    ensures fresh(body) && fresh(section)
    ensures styles == SetupDocumentStyles(d.style)
    ensures ok <==> styles.Some? && CoverStep(d, im).Some?
    ensures ok ==> body.blocks == CoverStep(d, im).value + AfterCover(d)
    ensures ok ==> section.pageWidthCm == 21.0 && section.pageHeightCm == 29.7
    ensures ok ==> section.margins == (d.page.marginTop, d.page.marginBottom, d.page.marginLeft, d.page.marginRight)
    ensures ok ==> section.differentFirstPage
    ensures ok ==> section.header == AfterSetup([EmptyParagraph], HeaderTable(d.logos, im))
    ensures ok ==> section.footer == AfterSetup([EmptyParagraph], FooterTable(d))
  {
    body := new Container();
    section := OpenSection(d);
    styles := SetupDocumentStyles(d.style);
    if styles.None? {
      ok := false;
      return;
    }
    ok := LegacyCoverThenSections(body, section, d, im);
  }

  /** The legacy steps after the styles: the dates, the legacy cover step, the header and footer, the sections. */
  method LegacyCoverThenSections(body: Container, section: Section, d: ReportData, im: Imaging) returns (ok: bool)
    requires body.blocks == []
    modifies body, section
    ensures ok <==> CoverStep(d, im).Some?
    ensures ok ==> body.blocks == CoverStep(d, im).value + AfterCover(d)
    ensures ok ==> section.header == AfterSetup(old(section.header), HeaderTable(d.logos, im))
    ensures ok ==> section.footer == AfterSetup(old(section.footer), FooterTable(d))
    ensures section.pageWidthCm == old(section.pageWidthCm) && section.pageHeightCm == old(section.pageHeightCm)
    ensures section.margins == old(section.margins) && section.differentFirstPage == old(section.differentFirstPage)
  {
    var duree := CalculateDuration(d.dateDebut, d.dateFin);
    var debutFr := FormatDateFr(d.dateDebut);
    var finFr := FormatDateFr(d.dateFin);
    ok := LegacyCoverStep(body, d, debutFr, finFr, duree, im);
    if !ok {
      return;
    }
    ghost var front := body.blocks;
    EmptyFront(front, [], CoverStep(d, im).value);
    section.SetupHeaderWithLogos(d, im);
    section.SetupFooterWithPageNumber(d);
    AddSections(body, d);
  }
}
