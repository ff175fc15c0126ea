// The request payload of the report generator: report identity fields, the
// chapter outline, the optional lists and the style, page and logo settings,
// each with the default value a field takes when the request leaves it out.
module Schemas {
  import opened Wrappers

  /** One node of the chapter outline; the editor nests nodes up to three levels. */
  datatype ChapterItem = ChapterItem(id: int, title: string, level: int, children: seq<ChapterItem>)

  /** A chapter node as built when the request gives no `children`: none. */
  function NewChapterItem(id: int, title: string, level: int): (c: ChapterItem)
    ensures c.id == id && c.title == title && c.level == level && c.children == []
  {
    ChapterItem(id, title, level, [])
  }

  datatype GlossaryItem = GlossaryItem(term: string, definition: string)

  datatype FigureItem = FigureItem(name: string, page: string)

  datatype GanttTask = GanttTask(task: string, start: string, end: string)

  /** Typography; sizes are points, colours `#rrggbb` strings, line spacing a factor. */
  datatype StyleConfig = StyleConfig(
    fontFamily: string,
    fontSize: int,
    lineSpacing: real,
    title1Size: int,
    title1Bold: bool,
    title1Color: string,
    title2Size: int,
    title2Bold: bool,
    title2Color: string,
    title3Size: int,
    title3Italic: bool,
    title3Color: string)

  const DefaultStyle := StyleConfig(
    "Times New Roman", 12, 1.5,
    16, true, "#1a365d",
    14, true, "#000000",
    12, true, "#333333")

  /** Page margins in centimetres and the two footer switches. */
  datatype PageConfig = PageConfig(
    marginTop: real,
    marginBottom: real,
    marginLeft: real,
    marginRight: real,
    showPageNumber: bool,
    showStudentName: bool)

  const DefaultPage := PageConfig(2.5, 2.5, 2.5, 2.5, true, true)

  /** Base64 image payloads (possibly data URIs); absent is Python `None`. */
  datatype LogosConfig = LogosConfig(
    logoEcole: Option<string>,
    logoEntreprise: Option<string>,
    imageCentrale: Option<string>)

  const DefaultLogos := LogosConfig(None, None, None)

  datatype ReportData = ReportData(
    coverModel: string,
    // student
    prenom: string,
    nom: string,
    formation: string,
    ecole: string,
    anneeScolaire: string,
    // company
    entrepriseNom: string,
    entrepriseSecteur: string,
    entrepriseVille: string,
    tuteurNom: string,
    tuteurPoste: string,
    tuteurAcademiqueNom: string,
    tuteurAcademiquePoste: string,
    // internship
    dateDebut: string,
    dateFin: string,
    sujetStage: string,
    poste: string,
    // structure
    chapters: seq<ChapterItem>,
    glossary: seq<GlossaryItem>,
    figures: seq<FigureItem>,
    ganttTasks: seq<GanttTask>,
    includeCover: bool,
    includeThanks: bool,
    includeToc: bool,
    includeFiguresList: bool,
    includeAbstract: bool,
    includeGlossary: bool,
    includeGantt: bool,
    includeAnnexes: bool,
    // layout
    style: StyleConfig,
    page: PageConfig,
    logos: LogosConfig)

  /** The payload `{}`: every field at its declared default. */
  const DefaultReport := ReportData(
    "classique",
    "", "", "", "", "",
    "", "", "", "", "", "", "",
    "", "", "", "",
    [], [], [], [],
    true, true, true, false, false, false, false, true,
    DefaultStyle, DefaultPage, DefaultLogos)

  /** The identity, company and internship text fields, in declaration order. */
  function TextFields(d: ReportData): seq<string>
  {
    [d.prenom, d.nom, d.formation, d.ecole, d.anneeScolaire,
     d.entrepriseNom, d.entrepriseSecteur, d.entrepriseVille, d.tuteurNom, d.tuteurPoste,
     d.tuteurAcademiqueNom, d.tuteurAcademiquePoste,
     d.dateDebut, d.dateFin, d.sujetStage, d.poste]
  }
  /**
   * The payload `{}` selects the classique cover, leaves every text field
   * empty, includes the cover, thanks, table of contents and annexes only,
   * shows the page number and the student name, and carries no image.
   */
  lemma {:induction false} DefaultReportFields()
    ensures DefaultReport.coverModel == "classique"
    ensures forall s :: s in TextFields(DefaultReport) ==> s == ""
    ensures DefaultReport.chapters == [] && DefaultReport.glossary == [] && DefaultReport.figures == [] && DefaultReport.ganttTasks == []
    ensures DefaultReport.includeCover && DefaultReport.includeThanks && DefaultReport.includeToc && DefaultReport.includeAnnexes
    ensures !DefaultReport.includeFiguresList && !DefaultReport.includeAbstract && !DefaultReport.includeGlossary && !DefaultReport.includeGantt
    ensures DefaultReport.page.showPageNumber && DefaultReport.page.showStudentName
    ensures DefaultReport.logos.logoEcole.None? && DefaultReport.logos.logoEntreprise.None? && DefaultReport.logos.imageCentrale.None?
  {
  }
}
