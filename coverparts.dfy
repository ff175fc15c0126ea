// The pieces the twelve cover pages share: the texts that fall back to
// bracketed placeholders, the title run, logo cells and the central image
// (both behind the presence test), repeated spacer paragraphs, the table a
// cell gains with `cell.add_table`, and a predicate saying a text is shown
// somewhere in a block tree.
module CoverParts {
  import opened Wrappers
  import opened Text
  import opened Document
  import opened Schemas
  import opened Images
  import opened TableXml

  // ---------------------------------------------------------------------
  // Texts
  // ---------------------------------------------------------------------

  /** The student line of every cover: first name and surname, each with its placeholder. */
  function StudentName(d: ReportData): string
  {
    Or(d.prenom, "[Prénom]") + " " + Or(d.nom, "[NOM]")
  }

  /** The student run: bold, 16 pt, on every cover. */
  function StudentRun(d: ReportData): Run
  {
    Text(StudentName(d), [Bold, SizePt(16)])
  }

  /** "RAPPORT DE STAGE", bold, in the given size and colour. */
  function TitleRun(pt: int, c: Rgb): Run
  {
    Text("RAPPORT DE STAGE", [Bold, SizePt(pt), Color(c)])
  }

  /** `f"Du {date_debut_fr} au {date_fin_fr}"`. */
  function DatesText(debut: string, fin: string): string
  {
    "Du " + debut + " au " + fin
  }

  function SchoolName(d: ReportData): string
  {
    Or(d.ecole, "[Établissement]")
  }

  function FormationName(d: ReportData): string
  {
    Or(d.formation, "[Formation]")
  }

  function CompanyName(d: ReportData): string
  {
    Or(d.entrepriseNom, "[Entreprise]")
  }

  function CompanyTutorName(d: ReportData): string
  {
    Or(d.tuteurNom, "[Nom]")
  }

  /** The company tutor line of the covers that list tutors as text. */
  function CompanyTutorLine(d: ReportData): string
  {
    "Tuteur entreprise : " + CompanyTutorName(d)
  }

  /** The academic tutor line, written only when the name is given. */
  function AcademicTutorLine(d: ReportData): string
  {
    "Tuteur académique : " + d.tuteurAcademiqueNom
  }

  /** The one-line tutor text of the covers that name only the company tutor. */
  function TutorLine(d: ReportData): string
  {
    "Tuteur : " + CompanyTutorName(d)
  }

  /** `f"{a}{sep}{b}"` with the placeholders of the school and year fields. */
  function SchoolYear(d: ReportData, sep: string): string
  {
    SchoolName(d) + sep + Or(d.anneeScolaire, "[Année]")
  }

  // ---------------------------------------------------------------------
  // Blocks
  // ---------------------------------------------------------------------

  /** The blocks of an `if` branch: present when the condition holds. */
  function When(c: bool, bs: seq<Block>): seq<Block>
  {
    if c then bs else []
  }

  /** `for _ in range(n)` adding the same empty paragraph each time. */
  function Repeat(b: Block, n: nat): (r: seq<Block>)
    ensures |r| == n
    ensures forall i :: 0 <= i < n ==> r[i] == b
  {
    if n == 0 then [] else Repeat(b, n - 1) + [b]
  }

  /** At least one of the two logos passes the presence test. */
  predicate HasLogo(l: LogosConfig)
  {
    HasImage(l.logoEcole) || HasImage(l.logoEntreprise)
  }

  /**
   * The first paragraph of a logo cell: untouched when the logo is absent,
   * otherwise formatted (before the decoding is attempted) and holding what
   * the picture attempt leaves.
   */
  function LogoParagraph(fmt: seq<ParaTag>, im: Imaging, o: Option<string>, heightCm: real): (p: Block)
    ensures !HasImage(o) ==> p == EmptyParagraph
    ensures HasImage(o) ==> p == Paragraph(fmt, PictureRuns(im, o.value, heightCm))
  {
    if HasImage(o) then Paragraph(fmt, PictureRuns(im, o.value, heightCm)) else EmptyParagraph
  }

  /** The central image paragraph, added (with its formatting) only when the image is present. */
  function ImageBlocks(fmt: seq<ParaTag>, im: Imaging, o: Option<string>, heightCm: real): (r: seq<Block>)
    ensures |r| <= 1
    ensures r != [] <==> HasImage(o)
  {
    if HasImage(o) then [Paragraph(fmt, PictureRuns(im, o.value, heightCm))] else []
  }

  /**
   * An image preceded by spacer paragraphs, all inside the same `try`: the
   * spacers and the formatted paragraph are added before decoding, so they
   * stay whatever the picture attempt does.
   */
  function SpacedImage(spacers: seq<Block>, fmt: seq<ParaTag>, im: Imaging, o: Option<string>, heightCm: real): (r: seq<Block>)
    ensures !HasImage(o) ==> r == []
    ensures HasImage(o) ==> |r| == |spacers| + 1 && r[..|spacers|] == spacers
  {
    if HasImage(o) then spacers + [Paragraph(fmt, PictureRuns(im, o.value, heightCm))] else []
  }

  /** A new table's cell whose first paragraph is `p`. */
  function OneParagraphCell(p: Block): Cell
  {
    Cell([], [p])
  }

  /** `set_cell_shading(cell, colour.lstrip('#'))`: the fill is stripped once more inside. */
  function Shaded(c: Cell, colourHex: string): Cell
  {
    SetCellShading(c, LStrip(colourHex, '#'))
  }

  /** What `cell.add_table(...)` appends to a cell: the table, then a new empty paragraph. */
  function InCell(t: Block): seq<Block>
  {
    [t, EmptyParagraph]
  }

  /** A two-column logo table, its cells' first paragraphs formatted by `fmt0` and `fmt1`. */
  function LogoPair(settings: seq<TableTag>, fmt0: seq<ParaTag>, fmt1: seq<ParaTag>, im: Imaging, l: LogosConfig, heightCm: real): Block
  {
    Table(settings, BordersRemoved(NewTableXml),
      [[OneParagraphCell(LogoParagraph(fmt0, im, l.logoEcole, heightCm)),
        OneParagraphCell(LogoParagraph(fmt1, im, l.logoEntreprise, heightCm))]])
  }

  // ---------------------------------------------------------------------
  // Where a text is shown
  // ---------------------------------------------------------------------

  /** Some run of a paragraph of `bs`, or of a cell of a table at most `depth` tables down, has the text `s`. */
  predicate ShowsText(bs: seq<Block>, s: string, depth: nat)
    decreases depth
  {
    exists b :: b in bs &&
      ((b.Paragraph? && exists r :: r in b.runs && r.Text? && r.text == s) ||
       (depth > 0 && b.Table? && exists row, c :: row in b.rows && c in row && ShowsText(c.blocks, s, depth - 1)))
  }

  /** A paragraph of `bs` holding the run shows the run's text. */
  lemma {:induction false} TextInParagraph(bs: seq<Block>, p: Block, r: Run, depth: nat)
    requires p in bs && p.Paragraph? && r in p.runs && r.Text?
    ensures ShowsText(bs, r.text, depth)
  {
  }

  /** A text shown in a cell of a table of `bs` is shown in `bs`, one table further down. */
  lemma {:induction false} TextInCell(bs: seq<Block>, t: Block, row: seq<Cell>, c: Cell, s: string, depth: nat)
    requires t in bs && t.Table? && row in t.rows && c in row
    requires depth >= 1 && ShowsText(c.blocks, s, depth - 1)
    ensures ShowsText(bs, s, depth)
  {
  }

  // ---------------------------------------------------------------------
  // Properties of the shared texts
  // ---------------------------------------------------------------------

  /**
   * The student line is never empty: with both names given it is "prenom nom",
   * and each missing name is replaced by its placeholder.
   */
  lemma {:induction false} StudentNameFallbacks(d: ReportData)
    ensures d.prenom != "" && d.nom != "" ==> StudentName(d) == d.prenom + " " + d.nom
    ensures d.prenom == "" && d.nom == "" ==> StudentName(d) == "[Prénom] [NOM]"
    ensures d.prenom == "" && d.nom != "" ==> StudentName(d) == "[Prénom] " + d.nom
    ensures d.prenom != "" && d.nom == "" ==> StudentName(d) == d.prenom + " [NOM]"
  {
  }

  /** The student line splits back at its separator: first name (or placeholder) before, surname after. */
  lemma {:induction false} StudentNameSplits(d: ReportData)
    requires ' ' !in d.prenom
    ensures var s := StudentName(d); var k := |Or(d.prenom, "[Prénom]")|;
      k < |s| && s[k] == ' ' && ' ' !in s[..k] && s[..k] == Or(d.prenom, "[Prénom]") && s[k + 1..] == Or(d.nom, "[NOM]")
  {
    var a, b := Or(d.prenom, "[Prénom]"), Or(d.nom, "[NOM]");
    var s := StudentName(d);
    assert s == a + " " + b;
    assert s[..|a|] == a;
    assert s[|a| + 1..] == b;
  }
}
