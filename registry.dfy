// The registry of cover generators: the twelve model names, the lookup that
// falls back to the classique cover for a name it does not know, and what the
// selected generator adds to the document.
module CoverRegistry {
  import opened Wrappers
  import opened Document
  import opened Schemas
  import opened Colors
  import opened Images
  import opened Styles
  import opened CoverParts
  import opened Covers
  import opened FramedCovers
  import opened PlainCovers
  import opened ColumnCovers
  import opened DateMarkers

  datatype CoverModel =
    | Classique | Moderne | Elegant | Minimaliste | Academique | Geometrique
    | Bicolore | Pro | Gradient | Timeline | Creative | Luxe

  /** The registry key of each model. */
  function ModelName(m: CoverModel): string
  {
    match m
    case Classique => "classique"
    case Moderne => "moderne"
    case Elegant => "elegant"
    case Minimaliste => "minimaliste"
    case Academique => "academique"
    case Geometrique => "geometrique"
    case Bicolore => "bicolore"
    case Pro => "pro"
    case Gradient => "gradient"
    case Timeline => "timeline"
    case Creative => "creative"
    case Luxe => "luxe"
  }

  /** `COVER_GENERATORS`: each registry key with the generator it names. */
  const CoverGenerators: map<string, CoverModel> := map[
    "classique" := Classique, "moderne" := Moderne, "elegant" := Elegant,
    "minimaliste" := Minimaliste, "academique" := Academique, "geometrique" := Geometrique,
    "bicolore" := Bicolore, "pro" := Pro, "gradient" := Gradient,
    "timeline" := Timeline, "creative" := Creative, "luxe" := Luxe]

  /** `get_cover_generator`: `COVER_GENERATORS.get(name, generate_cover_classique)`. */
  function CoverModelOf(name: string): CoverModel
  {
    if name in CoverGenerators then CoverGenerators[name] else Classique
  }

  /** Every model is found under its own key, and the keys are exactly the registry's names. */
  lemma {:induction false} LookupFindsEveryModel(m: CoverModel)
    ensures CoverModelOf(ModelName(m)) == m
    ensures ModelName(m) in CoverGenerators
  {
  }

  /** A known name selects the model it is the key of; any other name (as well as "classique") the classique cover. */
  lemma {:induction false} LookupByName(name: string)
    ensures name in CoverGenerators ==> ModelName(CoverModelOf(name)) == name
    ensures name !in CoverGenerators ==> CoverModelOf(name) == Classique
  {
  }

  /** The cover a model lays out once the heading colour `c` has been read (luxe reads none). */
  function ColouredCover(m: CoverModel, d: ReportData, debut: string, fin: string, im: Imaging, c: Rgb): seq<Block>
  {
    match m
    case Classique => ClassiqueCover(d, debut, fin, im, c)
    case Moderne => ModerneCover(d, debut, fin, im, c)
    case Elegant => ElegantCover(d, debut, fin, im, c)
    case Minimaliste => MinimalisteCover(d, debut, fin, im, c)
    case Academique => AcademiqueCover(d, debut, fin, im, c)
    case Geometrique => GeometriqueCover(d, debut, fin, im, c)
    case Bicolore => BicoloreCover(d, debut, fin, im, c)
    case Pro => ProCover(d, debut, fin, im, c)
    case Gradient => GradientCover(d, debut, fin, im, c)
    case Timeline => TimelineCover(d, debut, fin, im, c)
    case Creative => CreativeCover(d, debut, fin, im, c)
    case Luxe => LuxeCover(d, debut, fin, im)
  }

  /**
   * What the model's generator adds to the document, or None where it raises:
   * every cover but luxe reads the heading colour first and raises when it
   * cannot, before adding anything.
   */
  function CoverBlocks(m: CoverModel, d: ReportData, debut: string, fin: string, im: Imaging): Option<seq<Block>>
  {
    if m.Luxe? then Some(LuxeCover(d, debut, fin, im))
    else match Primary(d)
      case None => None
      case Some(c) => Some(ColouredCover(m, d, debut, fin, im, c))
  }

  /** Runs one of the generators that read the heading colour. */
  method GenerateColouredCover(doc: Container, m: CoverModel, d: ReportData, debut: string, fin: string, duree: string, im: Imaging) returns (ok: bool)
    requires !m.Luxe?
    modifies doc
    ensures ok <==> Primary(d).Some?
    ensures ok ==> doc.blocks == old(doc.blocks) + ColouredCover(m, d, debut, fin, im, Primary(d).value)
    ensures !ok ==> doc.blocks == old(doc.blocks)
  {
    match m
    case Classique => ok := GenerateCoverClassique(doc, d, debut, fin, duree, im);
    case Moderne => ok := GenerateCoverModerne(doc, d, debut, fin, duree, im);
    case Elegant => ok := GenerateCoverElegant(doc, d, debut, fin, duree, im);
    case Minimaliste => ok := GenerateCoverMinimaliste(doc, d, debut, fin, duree, im);
    case Academique => ok := GenerateCoverAcademique(doc, d, debut, fin, duree, im);
    case Geometrique => ok := GenerateCoverGeometrique(doc, d, debut, fin, duree, im);
    case Bicolore => ok := GenerateCoverBicolore(doc, d, debut, fin, duree, im);
    case Pro => ok := GenerateCoverPro(doc, d, debut, fin, duree, im);
    case Gradient => ok := GenerateCoverGradient(doc, d, debut, fin, duree, im);
    case Timeline => ok := GenerateCoverTimeline(doc, d, debut, fin, duree, im);
    case Creative => ok := GenerateCoverCreative(doc, d, debut, fin, duree, im);
  }

  /** Runs the generator the model selects. */
  method GenerateCover(doc: Container, m: CoverModel, d: ReportData, debut: string, fin: string, duree: string, im: Imaging) returns (ok: bool)
    modifies doc
    ensures ok <==> CoverBlocks(m, d, debut, fin, im).Some?
    ensures ok ==> doc.blocks == old(doc.blocks) + CoverBlocks(m, d, debut, fin, im).value
    ensures !ok ==> doc.blocks == old(doc.blocks)
  {
    ghost var cover := CoverBlocks(m, d, debut, fin, im);
    if m.Luxe? {
      assert cover == Some(LuxeCover(d, debut, fin, im));
      GenerateCoverLuxe(doc, d, debut, fin, duree, im);
      ok := true;
    } else {
      assert cover == if Primary(d).Some? then Some(ColouredCover(m, d, debut, fin, im, Primary(d).value)) else None;
      ok := GenerateColouredCover(doc, m, d, debut, fin, duree, im);
    }
  }

  // ---------------------------------------------------------------------
  // When a cover raises
  // ---------------------------------------------------------------------

  /** A cover raises exactly when it is not luxe and the heading colour is unreadable. */
  lemma {:induction false} CoverRaisesOnlyOnColour(m: CoverModel, d: ReportData, debut: string, fin: string, im: Imaging)
    ensures CoverBlocks(m, d, debut, fin, im).None? <==> m != Luxe && HexToRgb(d.style.title1Color).None?
  {
  }

  /**
   * In a report the styles are set up before the cover, and that step already
   * raises on an unreadable heading colour: once it has passed, no cover raises.
   */
  lemma {:induction false} CoverAfterStylesSucceeds(m: CoverModel, d: ReportData, debut: string, fin: string, im: Imaging)
    requires SetupDocumentStyles(d.style).Some?
    ensures CoverBlocks(m, d, debut, fin, im).Some?
  {
  }

  /** The luxe cover ignores every style setting, the colours included. */
  lemma {:induction false} LuxeIgnoresStyle(d: ReportData, style: StyleConfig, debut: string, fin: string, im: Imaging)
    ensures CoverBlocks(Luxe, d.(style := style), debut, fin, im) == CoverBlocks(Luxe, d, debut, fin, im)
  {
  }

  // ---------------------------------------------------------------------
  // What every cover shows
  // ---------------------------------------------------------------------

  /** How each cover writes the company. */
  function CompanyLine(m: CoverModel, d: ReportData): string
  {
    match m
    case Classique => "Stage réalisé chez " + CompanyName(d)
    case Academique => "Stage effectué chez " + CompanyName(d)
    case _ => CompanyName(d)
  }

  /** How each cover writes the internship dates; the timeline shows only the first word of each. */
  function DatesLine(m: CoverModel, debut: string, fin: string): string
  {
    match m
    case Minimaliste => debut + " — " + fin
    case Pro => debut + " — " + fin
    case Bicolore => debut + "\n—\n" + fin
    case Creative => debut + "  —  " + fin
    case Luxe => debut + "  —  " + fin
    case Timeline => DateMarker(debut)
    case _ => DatesText(debut, fin)
  }

  /** How each cover writes the subject: quoted on the creative cover, as given elsewhere. */
  function SubjectLine(m: CoverModel, d: ReportData): string
  {
    match m
    case Creative => Quoted(d.sujetStage)
    case _ => d.sujetStage
  }

  /**
   * Whatever the model, the cover names the student, the company and the
   * internship dates, and the subject when there is one: each is the text of
   * a run at most two tables deep (so at most `depth` deep for any `depth`
   * from two on).
   */
  lemma {:induction false} CoverShowsReport(m: CoverModel, d: ReportData, debut: string, fin: string, im: Imaging, depth: nat)
    requires CoverBlocks(m, d, debut, fin, im).Some?
    requires depth >= 2
    ensures ShowsText(CoverBlocks(m, d, debut, fin, im).value, StudentName(d), depth)
    ensures ShowsText(CoverBlocks(m, d, debut, fin, im).value, CompanyLine(m, d), depth)
    ensures ShowsText(CoverBlocks(m, d, debut, fin, im).value, DatesLine(m, debut, fin), depth)
    ensures d.sujetStage != "" ==> ShowsText(CoverBlocks(m, d, debut, fin, im).value, SubjectLine(m, d), depth)
  {
    match m
    case Classique => ClassiqueInRegistry(m, d, debut, fin, im, depth);
    case Moderne => ModerneInRegistry(m, d, debut, fin, im, depth);
    case Elegant => ElegantInRegistry(m, d, debut, fin, im, depth);
    case Minimaliste => MinimalisteInRegistry(m, d, debut, fin, im, depth);
    case Academique => AcademiqueInRegistry(m, d, debut, fin, im, depth);
    case Geometrique => GeometriqueInRegistry(m, d, debut, fin, im, depth);
    case Bicolore => BicoloreInRegistry(m, d, debut, fin, im, depth);
    case Pro => ProInRegistry(m, d, debut, fin, im, depth);
    case Gradient => GradientInRegistry(m, d, debut, fin, im, depth);
    case Timeline => TimelineInRegistry(m, d, debut, fin, im, depth);
    case Creative => CreativeInRegistry(m, d, debut, fin, im, depth);
    case Luxe => LuxeInRegistry(m, d, debut, fin, im, depth);
  }

  lemma {:induction false} ClassiqueInRegistry(m: CoverModel, d: ReportData, debut: string, fin: string, im: Imaging, depth: nat)
    requires m == Classique && CoverBlocks(m, d, debut, fin, im).Some?
    requires depth >= 2
    ensures ShowsText(CoverBlocks(m, d, debut, fin, im).value, StudentName(d), depth)
    ensures ShowsText(CoverBlocks(m, d, debut, fin, im).value, CompanyLine(m, d), depth)
    ensures ShowsText(CoverBlocks(m, d, debut, fin, im).value, DatesLine(m, debut, fin), depth)
    ensures d.sujetStage != "" ==> ShowsText(CoverBlocks(m, d, debut, fin, im).value, SubjectLine(m, d), depth)
  {
    var c := Primary(d).value;
    assert CoverBlocks(m, d, debut, fin, im).value == ClassiqueCover(d, debut, fin, im, c);
    assert CompanyLine(m, d) == "Stage réalisé chez " + CompanyName(d);
    assert DatesLine(m, debut, fin) == DatesText(debut, fin);
    assert SubjectLine(m, d) == d.sujetStage;
    ClassiqueShows(d, debut, fin, im, c, depth);
  }

  lemma {:induction false} ModerneInRegistry(m: CoverModel, d: ReportData, debut: string, fin: string, im: Imaging, depth: nat)
    requires m == Moderne && CoverBlocks(m, d, debut, fin, im).Some?
    requires depth >= 2
    ensures ShowsText(CoverBlocks(m, d, debut, fin, im).value, StudentName(d), depth)
    ensures ShowsText(CoverBlocks(m, d, debut, fin, im).value, CompanyLine(m, d), depth)
    ensures ShowsText(CoverBlocks(m, d, debut, fin, im).value, DatesLine(m, debut, fin), depth)
    ensures d.sujetStage != "" ==> ShowsText(CoverBlocks(m, d, debut, fin, im).value, SubjectLine(m, d), depth)
  {
    var c := Primary(d).value;
    assert CoverBlocks(m, d, debut, fin, im).value == ModerneCover(d, debut, fin, im, c);
    assert CompanyLine(m, d) == CompanyName(d);
    assert DatesLine(m, debut, fin) == DatesText(debut, fin);
    assert SubjectLine(m, d) == d.sujetStage;
    ModerneShows(d, debut, fin, im, c, depth);
  }

  lemma {:induction false} ElegantInRegistry(m: CoverModel, d: ReportData, debut: string, fin: string, im: Imaging, depth: nat)
    requires m == Elegant && CoverBlocks(m, d, debut, fin, im).Some?
    requires depth >= 2
    ensures ShowsText(CoverBlocks(m, d, debut, fin, im).value, StudentName(d), depth)
    ensures ShowsText(CoverBlocks(m, d, debut, fin, im).value, CompanyLine(m, d), depth)
    ensures ShowsText(CoverBlocks(m, d, debut, fin, im).value, DatesLine(m, debut, fin), depth)
    ensures d.sujetStage != "" ==> ShowsText(CoverBlocks(m, d, debut, fin, im).value, SubjectLine(m, d), depth)
  {
    var c := Primary(d).value;
    assert CoverBlocks(m, d, debut, fin, im).value == ElegantCover(d, debut, fin, im, c);
    assert CompanyLine(m, d) == CompanyName(d);
    assert DatesLine(m, debut, fin) == DatesText(debut, fin);
    assert SubjectLine(m, d) == d.sujetStage;
    ElegantShows(d, debut, fin, im, c, depth);
  }

  lemma {:induction false} MinimalisteInRegistry(m: CoverModel, d: ReportData, debut: string, fin: string, im: Imaging, depth: nat)
    requires m == Minimaliste && CoverBlocks(m, d, debut, fin, im).Some?
    requires depth >= 2
    ensures ShowsText(CoverBlocks(m, d, debut, fin, im).value, StudentName(d), depth)
    ensures ShowsText(CoverBlocks(m, d, debut, fin, im).value, CompanyLine(m, d), depth)
    ensures ShowsText(CoverBlocks(m, d, debut, fin, im).value, DatesLine(m, debut, fin), depth)
    ensures d.sujetStage != "" ==> ShowsText(CoverBlocks(m, d, debut, fin, im).value, SubjectLine(m, d), depth)
  {
    var c := Primary(d).value;
    assert CoverBlocks(m, d, debut, fin, im).value == MinimalisteCover(d, debut, fin, im, c);
    assert CompanyLine(m, d) == CompanyName(d);
    assert DatesLine(m, debut, fin) == debut + " — " + fin;
    assert SubjectLine(m, d) == d.sujetStage;
    MinimalisteShows(d, debut, fin, im, c, depth);
  }

  lemma {:induction false} AcademiqueInRegistry(m: CoverModel, d: ReportData, debut: string, fin: string, im: Imaging, depth: nat)
    requires m == Academique && CoverBlocks(m, d, debut, fin, im).Some?
    requires depth >= 2
    ensures ShowsText(CoverBlocks(m, d, debut, fin, im).value, StudentName(d), depth)
    ensures ShowsText(CoverBlocks(m, d, debut, fin, im).value, CompanyLine(m, d), depth)
    ensures ShowsText(CoverBlocks(m, d, debut, fin, im).value, DatesLine(m, debut, fin), depth)
    ensures d.sujetStage != "" ==> ShowsText(CoverBlocks(m, d, debut, fin, im).value, SubjectLine(m, d), depth)
  {
    var c := Primary(d).value;
    assert CoverBlocks(m, d, debut, fin, im).value == AcademiqueCover(d, debut, fin, im, c);
    assert CompanyLine(m, d) == "Stage effectué chez " + CompanyName(d);
    assert DatesLine(m, debut, fin) == DatesText(debut, fin);
    assert SubjectLine(m, d) == d.sujetStage;
    AcademiqueShows(d, debut, fin, im, c, depth);
  }

  lemma {:induction false} GeometriqueInRegistry(m: CoverModel, d: ReportData, debut: string, fin: string, im: Imaging, depth: nat)
    requires m == Geometrique && CoverBlocks(m, d, debut, fin, im).Some?
    requires depth >= 2
    ensures ShowsText(CoverBlocks(m, d, debut, fin, im).value, StudentName(d), depth)
    ensures ShowsText(CoverBlocks(m, d, debut, fin, im).value, CompanyLine(m, d), depth)
    ensures ShowsText(CoverBlocks(m, d, debut, fin, im).value, DatesLine(m, debut, fin), depth)
    ensures d.sujetStage != "" ==> ShowsText(CoverBlocks(m, d, debut, fin, im).value, SubjectLine(m, d), depth)
  {
    var c := Primary(d).value;
    assert CoverBlocks(m, d, debut, fin, im).value == GeometriqueCover(d, debut, fin, im, c);
    assert CompanyLine(m, d) == CompanyName(d);
    assert DatesLine(m, debut, fin) == DatesText(debut, fin);
    assert SubjectLine(m, d) == d.sujetStage;
    GeometriqueShows(d, debut, fin, im, c, depth);
  }

  lemma {:induction false} BicoloreInRegistry(m: CoverModel, d: ReportData, debut: string, fin: string, im: Imaging, depth: nat)
    requires m == Bicolore && CoverBlocks(m, d, debut, fin, im).Some?
    requires depth >= 2
    ensures ShowsText(CoverBlocks(m, d, debut, fin, im).value, StudentName(d), depth)
    ensures ShowsText(CoverBlocks(m, d, debut, fin, im).value, CompanyLine(m, d), depth)
    ensures ShowsText(CoverBlocks(m, d, debut, fin, im).value, DatesLine(m, debut, fin), depth)
    ensures d.sujetStage != "" ==> ShowsText(CoverBlocks(m, d, debut, fin, im).value, SubjectLine(m, d), depth)
  {
    var c := Primary(d).value;
    assert CoverBlocks(m, d, debut, fin, im).value == BicoloreCover(d, debut, fin, im, c);
    assert CompanyLine(m, d) == CompanyName(d);
    assert DatesLine(m, debut, fin) == debut + "\n—\n" + fin;
    assert SubjectLine(m, d) == d.sujetStage;
    BicoloreShows(d, debut, fin, im, c, depth);
  }

  lemma {:induction false} ProInRegistry(m: CoverModel, d: ReportData, debut: string, fin: string, im: Imaging, depth: nat)
    requires m == Pro && CoverBlocks(m, d, debut, fin, im).Some?
    requires depth >= 2
    ensures ShowsText(CoverBlocks(m, d, debut, fin, im).value, StudentName(d), depth)
    ensures ShowsText(CoverBlocks(m, d, debut, fin, im).value, CompanyLine(m, d), depth)
    ensures ShowsText(CoverBlocks(m, d, debut, fin, im).value, DatesLine(m, debut, fin), depth)
    ensures d.sujetStage != "" ==> ShowsText(CoverBlocks(m, d, debut, fin, im).value, SubjectLine(m, d), depth)
  {
    var c := Primary(d).value;
    assert CoverBlocks(m, d, debut, fin, im).value == ProCover(d, debut, fin, im, c);
    assert CompanyLine(m, d) == CompanyName(d);
    assert DatesLine(m, debut, fin) == debut + " — " + fin;
    assert SubjectLine(m, d) == d.sujetStage;
    ProShows(d, debut, fin, im, c, depth);
  }

  lemma {:induction false} GradientInRegistry(m: CoverModel, d: ReportData, debut: string, fin: string, im: Imaging, depth: nat)
    requires m == Gradient && CoverBlocks(m, d, debut, fin, im).Some?
    requires depth >= 2
    ensures ShowsText(CoverBlocks(m, d, debut, fin, im).value, StudentName(d), depth)
    ensures ShowsText(CoverBlocks(m, d, debut, fin, im).value, CompanyLine(m, d), depth)
    ensures ShowsText(CoverBlocks(m, d, debut, fin, im).value, DatesLine(m, debut, fin), depth)
    ensures d.sujetStage != "" ==> ShowsText(CoverBlocks(m, d, debut, fin, im).value, SubjectLine(m, d), depth)
  {
    var c := Primary(d).value;
    var v := CoverBlocks(m, d, debut, fin, im).value;
    assert v == GradientCover(d, debut, fin, im, c);
    GradientShows(d, debut, fin, im, c, depth);
    assert ShowsText(v, CompanyLine(m, d), depth) by {
      assert CompanyLine(m, d) == CompanyName(d);
    }
    assert ShowsText(v, DatesLine(m, debut, fin), depth) by {
      assert DatesLine(m, debut, fin) == DatesText(debut, fin);
    }
    assert SubjectLine(m, d) == d.sujetStage;
  }

  lemma {:induction false} TimelineInRegistry(m: CoverModel, d: ReportData, debut: string, fin: string, im: Imaging, depth: nat)
    requires m == Timeline && CoverBlocks(m, d, debut, fin, im).Some?
    requires depth >= 2
    ensures ShowsText(CoverBlocks(m, d, debut, fin, im).value, StudentName(d), depth)
    ensures ShowsText(CoverBlocks(m, d, debut, fin, im).value, CompanyLine(m, d), depth)
    ensures ShowsText(CoverBlocks(m, d, debut, fin, im).value, DatesLine(m, debut, fin), depth)
    ensures d.sujetStage != "" ==> ShowsText(CoverBlocks(m, d, debut, fin, im).value, SubjectLine(m, d), depth)
  {
    var c := Primary(d).value;
    var v := CoverBlocks(m, d, debut, fin, im).value;
    assert v == TimelineCover(d, debut, fin, im, c);
    TimelineShows(d, debut, fin, im, c, depth);
    assert ShowsText(v, CompanyLine(m, d), depth) by {
      assert CompanyLine(m, d) == CompanyName(d);
    }
    assert ShowsText(v, DatesLine(m, debut, fin), depth) by {
      assert DatesLine(m, debut, fin) == DateMarker(debut);
    }
    assert SubjectLine(m, d) == d.sujetStage;
  }

  lemma {:induction false} CreativeInRegistry(m: CoverModel, d: ReportData, debut: string, fin: string, im: Imaging, depth: nat)
    requires m == Creative && CoverBlocks(m, d, debut, fin, im).Some?
    requires depth >= 2
    ensures ShowsText(CoverBlocks(m, d, debut, fin, im).value, StudentName(d), depth)
    ensures ShowsText(CoverBlocks(m, d, debut, fin, im).value, CompanyLine(m, d), depth)
    ensures ShowsText(CoverBlocks(m, d, debut, fin, im).value, DatesLine(m, debut, fin), depth)
    ensures d.sujetStage != "" ==> ShowsText(CoverBlocks(m, d, debut, fin, im).value, SubjectLine(m, d), depth)
  {
    var c := Primary(d).value;
    assert CoverBlocks(m, d, debut, fin, im).value == CreativeCover(d, debut, fin, im, c);
    assert CompanyLine(m, d) == CompanyName(d);
    assert DatesLine(m, debut, fin) == debut + "  —  " + fin;
    assert SubjectLine(m, d) == Quoted(d.sujetStage);
    CreativeShows(d, debut, fin, im, c, depth);
  }

  lemma {:induction false} LuxeInRegistry(m: CoverModel, d: ReportData, debut: string, fin: string, im: Imaging, depth: nat)
    requires m == Luxe && CoverBlocks(m, d, debut, fin, im).Some?
    requires depth >= 2
    ensures ShowsText(CoverBlocks(m, d, debut, fin, im).value, StudentName(d), depth)
    ensures ShowsText(CoverBlocks(m, d, debut, fin, im).value, CompanyLine(m, d), depth)
    ensures ShowsText(CoverBlocks(m, d, debut, fin, im).value, DatesLine(m, debut, fin), depth)
    ensures d.sujetStage != "" ==> ShowsText(CoverBlocks(m, d, debut, fin, im).value, SubjectLine(m, d), depth)
  {
    assert CoverBlocks(m, d, debut, fin, im).value == LuxeCover(d, debut, fin, im);
    assert CompanyLine(m, d) == CompanyName(d);
    assert DatesLine(m, debut, fin) == debut + "  —  " + fin;
    assert SubjectLine(m, d) == d.sujetStage;
    LuxeShows(d, debut, fin, im, depth);
  }
}
