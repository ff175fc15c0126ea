// The sections of the report body: the table of contents page, the thanks,
// the abstract, the chapters with their writing hints, and the annexes. Each
// generator appends a fixed pattern of blocks to the document.
module Sections {
  import opened Text
  import opened Document
  import opened Schemas
  import opened Toc

  // ---------------------------------------------------------------------
  // Chapter hints
  // ---------------------------------------------------------------------

  const IntroductionHint := "[Présenter le contexte, les objectifs et le plan du rapport...]"
  const CompanyHint := "[Présenter l'entreprise, son histoire, ses activités, son organisation...]"
  const MissionHint := "[Décrire les missions confiées et leurs objectifs...]"
  const WorkHint := "[Détailler le travail effectué, les méthodes et outils utilisés...]"
  const ReviewHint := "[Analyser les résultats, difficultés et compétences acquises...]"
  const ConclusionHint := "[Synthétiser les apports du stage et les perspectives...]"
  /** The placeholder of a chapter no keyword matches, and of every sub-chapter. */
  const ToWrite := "[Contenu à rédiger...]"

  /** The six hints of the keyword groups, in the order the groups are tried. */
  const GroupHints := [IntroductionHint, CompanyHint, MissionHint, WorkHint, ReviewHint, ConclusionHint]

  /** Whether the lower-cased title matches keyword group `g` (0..5). */
  predicate MatchesGroup(t: string, g: nat)
    requires g < 6
  {
    if g == 0 then Contains(t, "introduction")
    else if g == 1 then Contains(t, "entreprise") || Contains(t, "présentation")
    else if g == 2 then Contains(t, "mission")
    else if g == 3 then Contains(t, "travail") || Contains(t, "réalis")
    else if g == 4 then Contains(t, "bilan")
    else Contains(t, "conclusion")
  }

  /** `get_chapter_hint`: the first keyword group the lower-cased title matches picks the hint. */
  function ChapterHint(title: string): string
  {
    var t := Lower(title);
    if Contains(t, "introduction") then IntroductionHint
    else if Contains(t, "entreprise") || Contains(t, "présentation") then CompanyHint
    else if Contains(t, "mission") then MissionHint
    else if Contains(t, "travail") || Contains(t, "réalis") then WorkHint
    else if Contains(t, "bilan") then ReviewHint
    else if Contains(t, "conclusion") then ConclusionHint
    else ToWrite
  }

  /** The hints in group order, the fallback last: the hint of group `g`, and of "no group" at 6. */
  const AllHints := GroupHints + [ToWrite]

  /** The first group from `g` on that the lower-cased title matches, or 6 when there is none. */
  function FirstGroup(t: string, g: nat): (r: nat)
    requires g <= 6
    ensures g <= r <= 6
    ensures r < 6 ==> MatchesGroup(t, r)
    ensures forall h :: g <= h < r ==> !MatchesGroup(t, h)
    decreases 6 - g
  {
    if g == 6 then 6 else if MatchesGroup(t, g) then g else FirstGroup(t, g + 1)
  }

  /**
   * The if/elif chain is first-match selection: the hint is that of the first
   * group the lower-cased title matches, and the fallback when it matches none.
   */
  lemma {:induction false} ChapterHintFirstMatch(title: string)
    ensures ChapterHint(title) == AllHints[FirstGroup(Lower(title), 0)]
  {
    var t := Lower(title);
    assert FirstGroup(t, 0) == 0 || (!MatchesGroup(t, 0) && FirstGroup(t, 0) == FirstGroup(t, 1));
    assert FirstGroup(t, 1) == 1 || (!MatchesGroup(t, 1) && FirstGroup(t, 1) == FirstGroup(t, 2));
    assert FirstGroup(t, 2) == 2 || (!MatchesGroup(t, 2) && FirstGroup(t, 2) == FirstGroup(t, 3));
    assert FirstGroup(t, 3) == 3 || (!MatchesGroup(t, 3) && FirstGroup(t, 3) == FirstGroup(t, 4));
    assert FirstGroup(t, 4) == 4 || (!MatchesGroup(t, 4) && FirstGroup(t, 4) == FirstGroup(t, 5));
  }

  /** The fallback is given exactly when the lower-cased title matches no keyword group. */
  lemma {:induction false} ChapterHintFallback(title: string)
    ensures ChapterHint(title) == ToWrite <==> forall g :: 0 <= g < 6 ==> !MatchesGroup(Lower(title), g)
  {
    ChapterHintFirstMatch(title);
    var r := FirstGroup(Lower(title), 0);
    if r < 6 {
      assert |AllHints[r]| > 40 && |ToWrite| < 40;
    }
  }

  /** Lower-casing comes first, so the keyword matches whatever the case of the title. */
  lemma {:induction false} ChapterHintIgnoresCase(title: string)
    ensures ChapterHint(Lower(title)) == ChapterHint(title)
  {
    LowerIdempotent(title);
  }

  lemma {:induction false} LowerBilan()
    ensures Lower("Bilan et conclusion") == "bilan et conclusion"
  {
    var s := "Bilan et conclusion";
    assert LowerChar(s[0]) == 'b';
    assert forall k :: 1 <= k < |s| ==> !IsUpper(s[k]);
  }

  /** "Bilan et conclusion" gets the review hint: `bilan` is tried before `conclusion`. */
  lemma {:induction false} ReviewBeforeConclusion()
    ensures ChapterHint("Bilan et conclusion") == ReviewHint
  {
    LowerBilan();
    var t := "bilan et conclusion";
    BilanLacksRM();
    assert 'r' in "introduction" && 'r' in "entreprise" && 'r' in "présentation";
    MissingCharNotContained(t, "introduction", 'r');
    MissingCharNotContained(t, "entreprise", 'r');
    MissingCharNotContained(t, "présentation", 'r');
    assert 'm' in "mission" && 'r' in "travail" && 'r' in "réalis";
    MissingCharNotContained(t, "mission", 'm');
    MissingCharNotContained(t, "travail", 'r');
    MissingCharNotContained(t, "réalis", 'r');
    assert t[0..5] == "bilan";
    assert OccursAt(t, "bilan", 0);
  }

  lemma {:induction false} BilanLacksRM()
    ensures 'r' !in "bilan et conclusion" && 'm' !in "bilan et conclusion"
  {
    var t := "bilan et conclusion";
    assert forall k :: 0 <= k < |t| ==> t[k] != 'r' && t[k] != 'm';
  }

  // ---------------------------------------------------------------------
  // Chapters
  // ---------------------------------------------------------------------

  /** A grey italic placeholder paragraph. */
  function GreyParagraph(text: string): Block
  {
    Paragraph([], [Text(text, [Italic, Color(Grey)])])
  }

  /** The heading and placeholder of the first `n` grandchildren of sub-chapter `i.j`. */
  function SubSubBlocks(i: nat, j: nat, gs: seq<ChapterItem>, n: nat): seq<Block>
    requires n <= |gs|
  {
    if n == 0 then [] else SubSubBlocks(i, j, gs, n - 1) + [Heading(3, Label3(i, j, n, gs[n - 1].title), []), GreyParagraph(ToWrite)]
  }

  function SubChapterBlocks(i: nat, j: nat, sub: ChapterItem): seq<Block>
  {
    [Heading(2, Label2(i, j, sub.title), []), GreyParagraph(ToWrite)] + SubSubBlocks(i, j, sub.children, |sub.children|)
  }

  function SubBlocks(i: nat, subs: seq<ChapterItem>, n: nat): seq<Block>
    requires n <= |subs|
  {
    if n == 0 then [] else SubBlocks(i, subs, n - 1) + SubChapterBlocks(i, n, subs[n - 1])
  }

  /** Chapter `i`: heading, hint, its sub-chapters, then a page break. */
  function ChapterBlocks(i: nat, ch: ChapterItem): seq<Block>
  {
    [Heading(1, Label1(i, ch.title), []), GreyParagraph(ChapterHint(ch.title))]
    + SubBlocks(i, ch.children, |ch.children|) + [PageBreak]
  }

  function ChaptersBlocks(chs: seq<ChapterItem>, n: nat): seq<Block>
    requires n <= |chs|
  {
    if n == 0 then [] else ChaptersBlocks(chs, n - 1) + ChapterBlocks(n, chs[n - 1])
  }

  lemma {:induction false} ChaptersBlocksStep(chs: seq<ChapterItem>, n: nat)
    requires n < |chs|
    ensures ChaptersBlocks(chs, n + 1) == ChaptersBlocks(chs, n) + ChapterBlocks(n + 1, chs[n])
  {
  }

  lemma {:induction false} AppendAssoc<T>(a: seq<T>, b: seq<T>, c: seq<T>)
    ensures (a + b) + c == a + (b + c)
  {
  }

  method AddSubChapter(doc: Container, i: nat, j: nat, sub: ChapterItem)
    modifies doc
    ensures doc.blocks == old(doc.blocks) + SubChapterBlocks(i, j, sub)
  {
    doc.Add(Heading(2, Label2(i, j, sub.title), []));
    doc.Add(GreyParagraph(ToWrite));
    ghost var base := doc.blocks;
    var k := 0;
    while k < |sub.children|
      invariant 0 <= k <= |sub.children|
      invariant doc.blocks == base + SubSubBlocks(i, j, sub.children, k)
    {
      doc.Add(Heading(3, Label3(i, j, k + 1, sub.children[k].title), []));
      doc.Add(GreyParagraph(ToWrite));
      AppendAssoc(base, SubSubBlocks(i, j, sub.children, k), [Heading(3, Label3(i, j, k + 1, sub.children[k].title), [])]);
      k := k + 1;
    }
  }

  method AddChapter(doc: Container, i: nat, ch: ChapterItem)
    modifies doc
    ensures doc.blocks == old(doc.blocks) + ChapterBlocks(i, ch)
  {
    doc.Add(Heading(1, Label1(i, ch.title), []));
    doc.Add(GreyParagraph(ChapterHint(ch.title)));
    ghost var base := doc.blocks;
    var j := 0;
    while j < |ch.children|
      invariant 0 <= j <= |ch.children|
      invariant doc.blocks == base + SubBlocks(i, ch.children, j)
    {
      AddSubChapter(doc, i, j + 1, ch.children[j]);
      AppendAssoc(base, SubBlocks(i, ch.children, j), SubChapterBlocks(i, j + 1, ch.children[j]));
      j := j + 1;
    }
    doc.Add(PageBreak);
  }

  /** `generate_chapters`: every chapter in order, numbered from 1 by position. */
  method GenerateChapters(doc: Container, d: ReportData)
    modifies doc
    ensures doc.blocks == old(doc.blocks) + ChaptersBlocks(d.chapters, |d.chapters|)
  {
    ghost var base := doc.blocks;
    var idx := 0;
    while idx < |d.chapters|
      invariant 0 <= idx <= |d.chapters|
      invariant doc.blocks == base + ChaptersBlocks(d.chapters, idx)
    {
      AddChapter(doc, idx + 1, d.chapters[idx]);
      AppendAssoc(base, ChaptersBlocks(d.chapters, idx), ChapterBlocks(idx + 1, d.chapters[idx]));
      idx := idx + 1;
    }
  }

  // ---------------------------------------------------------------------
  // The chapter headings are the table of contents
  // ---------------------------------------------------------------------

  /** The (level, text) of every heading, in order. */
  function HeadingsOf(bs: seq<Block>): seq<(nat, string)>
  {
    if bs == [] then []
    else (if bs[0].Heading? then [(bs[0].level, bs[0].text)] else []) + HeadingsOf(bs[1..])
  }

  /** The (level, text) of every entry, in order. */
  function Titles(es: seq<TocEntry>): seq<(nat, string)>
  {
    if es == [] then [] else [(es[0].level, es[0].text)] + Titles(es[1..])
  }

  lemma {:induction false} HeadingsOfAppend(a: seq<Block>, b: seq<Block>)
    ensures HeadingsOf(a + b) == HeadingsOf(a) + HeadingsOf(b)
    decreases |a|
  {
    if a == [] {
      assert a + b == b;
    } else {
      assert (a + b)[1..] == a[1..] + b;
      HeadingsOfAppend(a[1..], b);
    }
  }

  lemma {:induction false} HeadingsOfPair(level: nat, text: string, p: Block)
    requires !p.Heading?
    ensures HeadingsOf([Heading(level, text, []), p]) == [(level, text)]
  {
    assert [p][1..] == [];
    assert HeadingsOf([p]) == [];
    assert [Heading(level, text, []), p][1..] == [p];
  }

  /** Matching heading and entry lists concatenate to matching lists. */
  lemma {:induction false} MatchAppend(a: seq<Block>, b: seq<Block>, ea: seq<TocEntry>, eb: seq<TocEntry>)
    requires HeadingsOf(a) == Titles(ea) && HeadingsOf(b) == Titles(eb)
    ensures HeadingsOf(a + b) == Titles(ea + eb)
  {
    HeadingsOfAppend(a, b);
    TitlesAppend(ea, eb);
  }

  lemma {:induction false} TitlesAppend(a: seq<TocEntry>, b: seq<TocEntry>)
    ensures Titles(a + b) == Titles(a) + Titles(b)
    decreases |a|
  {
    if a == [] {
      assert a + b == b;
    } else {
      assert (a + b)[1..] == a[1..] + b;
      TitlesAppend(a[1..], b);
    }
  }

  lemma {:induction false} SubSubHeadings(i: nat, j: nat, gs: seq<ChapterItem>, n: nat, page: nat)
    requires n <= |gs|
    ensures HeadingsOf(SubSubBlocks(i, j, gs, n)) == Titles(SubSubEntries(i, j, gs, n, page))
    decreases n
  {
    if n > 0 {
      SubSubHeadings(i, j, gs, n - 1, page);
      var caption := Label3(i, j, n, gs[n - 1].title);
      HeadingsOfPair(3, caption, GreyParagraph(ToWrite));
      assert Titles([TocEntry(caption, 3, page)]) == [(3, caption)];
      MatchAppend(SubSubBlocks(i, j, gs, n - 1), [Heading(3, caption, []), GreyParagraph(ToWrite)],
        SubSubEntries(i, j, gs, n - 1, page), [TocEntry(caption, 3, page)]);
    }
  }

  lemma {:induction false} SubChapterHeadings(i: nat, j: nat, sub: ChapterItem, page: nat)
    ensures HeadingsOf(SubChapterBlocks(i, j, sub)) == Titles(SubChapterEntries(i, j, sub, page))
  {
    SubSubHeadings(i, j, sub.children, |sub.children|, page);
    var caption := Label2(i, j, sub.title);
    HeadingsOfPair(2, caption, GreyParagraph(ToWrite));
    assert Titles([TocEntry(caption, 2, page)]) == [(2, caption)];
    MatchAppend([Heading(2, caption, []), GreyParagraph(ToWrite)], SubSubBlocks(i, j, sub.children, |sub.children|),
      [TocEntry(caption, 2, page)], SubSubEntries(i, j, sub.children, |sub.children|, page));
  }

  lemma {:induction false} SubHeadings(i: nat, subs: seq<ChapterItem>, n: nat, page: nat)
    requires n <= |subs|
    ensures HeadingsOf(SubBlocks(i, subs, n)) == Titles(SubEntries(i, subs, n, page))
    decreases n
  {
    if n > 0 {
      SubHeadings(i, subs, n - 1, page);
      SubChapterHeadings(i, n, subs[n - 1], page);
      MatchAppend(SubBlocks(i, subs, n - 1), SubChapterBlocks(i, n, subs[n - 1]),
        SubEntries(i, subs, n - 1, page), SubChapterEntries(i, n, subs[n - 1], page));
    }
  }

  lemma {:induction false} ChapterHeadings(i: nat, ch: ChapterItem, page: nat)
    ensures HeadingsOf(ChapterBlocks(i, ch)) == Titles(ChapterEntries(i, ch, page))
  {
    var caption := Label1(i, ch.title);
    var head := [Heading(1, caption, []), GreyParagraph(ChapterHint(ch.title))];
    var subs := SubBlocks(i, ch.children, |ch.children|);
    var entries := SubEntries(i, ch.children, |ch.children|, page);
    SubHeadings(i, ch.children, |ch.children|, page);
    HeadingsOfPair(1, caption, GreyParagraph(ChapterHint(ch.title)));
    assert Titles([TocEntry(caption, 1, page)]) == [(1, caption)];
    MatchAppend(head, subs, [TocEntry(caption, 1, page)], entries);
    assert [PageBreak][1..] == [];
    MatchAppend(head + subs, [PageBreak], [TocEntry(caption, 1, page)] + entries, []);
    assert [TocEntry(caption, 1, page)] + entries + [] == ChapterEntries(i, ch, page);
  }

  /**
   * The chapter body and the table of contents number the same tree the same
   * way: the headings of the first `n` chapters, level and text, are exactly
   * the chapter entries of the table, whatever page the first chapter is on.
   */
  lemma {:induction false} ChaptersHeadingsAreToc(chs: seq<ChapterItem>, n: nat, first: nat)
    requires n <= |chs|
    ensures HeadingsOf(ChaptersBlocks(chs, n)) == Titles(ChaptersEntries(chs, n, first))
    decreases n
  {
    if n > 0 {
      var m := n - 1;
      ChaptersHeadingsAreToc(chs, m, first);
      ChapterHeadings(m + 1, chs[m], first + m);
      ChaptersEntriesStep(chs, m, first);
      ChaptersBlocksStep(chs, m);
      MatchAppend(ChaptersBlocks(chs, m), ChapterBlocks(m + 1, chs[m]),
        ChaptersEntries(chs, m, first), ChapterEntries(m + 1, chs[m], first + m));
    }
  }

  /** The number of page breaks among some blocks. */
  function PageBreaks(bs: seq<Block>): nat
  {
    if bs == [] then 0 else (if bs[0].PageBreak? then 1 else 0) + PageBreaks(bs[1..])
  }

  lemma {:induction false} PageBreaksAppend(a: seq<Block>, b: seq<Block>)
    ensures PageBreaks(a + b) == PageBreaks(a) + PageBreaks(b)
    decreases |a|
  {
    if a == [] {
      assert a + b == b;
    } else {
      assert (a + b)[1..] == a[1..] + b;
      PageBreaksAppend(a[1..], b);
    }
  }

  /** A heading followed by a paragraph holds no page break. */
  lemma {:induction false} PairNoBreak(h: Block, p: Block)
    requires !h.PageBreak? && !p.PageBreak?
    ensures PageBreaks([h, p]) == 0
  {
    assert [p][1..] == [];
    assert PageBreaks([p]) == 0;
    assert [h, p][1..] == [p];
  }

  lemma {:induction false} SubSubBlocksNoBreak(i: nat, j: nat, gs: seq<ChapterItem>, n: nat)
    requires n <= |gs|
    ensures PageBreaks(SubSubBlocks(i, j, gs, n)) == 0
    decreases n
  {
    if n > 0 {
      SubSubBlocksNoBreak(i, j, gs, n - 1);
      var pair := [Heading(3, Label3(i, j, n, gs[n - 1].title), []), GreyParagraph(ToWrite)];
      PageBreaksAppend(SubSubBlocks(i, j, gs, n - 1), pair);
      PairNoBreak(pair[0], pair[1]);
    }
  }

  lemma {:induction false} SubBlocksNoBreak(i: nat, subs: seq<ChapterItem>, n: nat)
    requires n <= |subs|
    ensures PageBreaks(SubBlocks(i, subs, n)) == 0
    decreases n
  {
    if n > 0 {
      SubBlocksNoBreak(i, subs, n - 1);
      var sub := subs[n - 1];
      var pair := [Heading(2, Label2(i, n, sub.title), []), GreyParagraph(ToWrite)];
      SubSubBlocksNoBreak(i, n, sub.children, |sub.children|);
      PageBreaksAppend(pair, SubSubBlocks(i, n, sub.children, |sub.children|));
      PairNoBreak(pair[0], pair[1]);
      PageBreaksAppend(SubBlocks(i, subs, n - 1), SubChapterBlocks(i, n, sub));
    }
  }

  /**
   * Exactly one page break per chapter, and it closes the chapter: no
   * chapters give no blocks at all, and `n` chapters give `n` page breaks.
   */
  lemma {:induction false} ChaptersPageBreaks(chs: seq<ChapterItem>, n: nat)
    requires n <= |chs|
    ensures PageBreaks(ChaptersBlocks(chs, n)) == n
    ensures n == 0 <==> ChaptersBlocks(chs, n) == []
    ensures n > 0 ==> ChaptersBlocks(chs, n)[|ChaptersBlocks(chs, n)| - 1] == PageBreak
    decreases n
  {
    if n > 0 {
      ChaptersPageBreaks(chs, n - 1);
      var ch := chs[n - 1];
      var head := [Heading(1, Label1(n, ch.title), []), GreyParagraph(ChapterHint(ch.title))];
      var subs := SubBlocks(n, ch.children, |ch.children|);
      SubBlocksNoBreak(n, ch.children, |ch.children|);
      PairNoBreak(head[0], head[1]);
      assert [PageBreak][1..] == [];
      PageBreaksAppend(head, subs);
      PageBreaksAppend(head + subs, [PageBreak]);
      PageBreaksAppend(ChaptersBlocks(chs, n - 1), ChapterBlocks(n, ch));
    }
  }

  // ---------------------------------------------------------------------
  // The fixed sections
  // ---------------------------------------------------------------------

  function CentredHeading(text: string): Block
  {
    Heading(1, text, [Aligned(AlignCenter)])
  }

  /** `generate_toc_section`: title, an empty paragraph, the entries, a page break. */
  function TocSectionBlocks(d: ReportData): seq<Block>
  {
    [CentredHeading("TABLE DES MATIÈRES"), EmptyParagraph] + EntryBlocks(TocEntries(d)) + [PageBreak]
  }

  method GenerateTocSection(doc: Container, d: ReportData)
    modifies doc
    ensures doc.blocks == old(doc.blocks) + TocSectionBlocks(d)
  {
    doc.Add(CentredHeading("TABLE DES MATIÈRES"));
    doc.Add(EmptyParagraph);
    ghost var base := doc.blocks;
    CreateToc(doc, d);
    doc.Add(PageBreak);
    AppendAssoc(old(doc.blocks), [CentredHeading("TABLE DES MATIÈRES"), EmptyParagraph], EntryBlocks(TocEntries(d)));
  }

  /** The company tutor's paragraph: name, then ", poste," when there is a poste. */
  function TutorRuns(name: string, poste: string, lead: string, tail: string): seq<Run>
  {
    [Text(lead + name, [])] + (if poste != "" then [Text(", " + poste + ",", [])] else []) + [Text(tail, [])]
  }

  const CompanyTutorLead := "Je remercie particulièrement "
  const CompanyTutorTail := " pour son encadrement tout au long de ce stage."
  const AcademicTutorLead := "Je remercie également "
  const AcademicTutorTail := " pour son suivi académique."

  function OpeningThanks(d: ReportData): string
  {
    "Je tiens à remercier " + Or(d.entrepriseNom, "[Entreprise]") + " pour m'avoir accueilli durant ce stage."
  }

  /** `generate_thanks_section`, block by block. */
  function ThanksBlocks(d: ReportData): seq<Block>
  {
    [CentredHeading("REMERCIEMENTS"), Paragraph([], [Text(OpeningThanks(d), [])])]
    + (if d.tuteurNom != "" then [Paragraph([], TutorRuns(d.tuteurNom, d.tuteurPoste, CompanyTutorLead, CompanyTutorTail))] else [])
    + (if d.tuteurAcademiqueNom != "" then
         [Paragraph([], TutorRuns(d.tuteurAcademiqueNom, d.tuteurAcademiquePoste, AcademicTutorLead, AcademicTutorTail))]
       else [])
    + [GreyParagraph("[Compléter les remerciements...]"), PageBreak]
  }

  /** One tutor paragraph, its runs added one by one. */
  method AddTutorParagraph(doc: Container, name: string, poste: string, lead: string, tail: string)
    modifies doc
    ensures doc.blocks == old(doc.blocks) + [Paragraph([], TutorRuns(name, poste, lead, tail))]
  {
    var runs := [Text(lead + name, [])];
    if poste != "" {
      runs := runs + [Text(", " + poste + ",", [])];
    }
    runs := runs + [Text(tail, [])];
    assert runs == TutorRuns(name, poste, lead, tail);
    doc.Add(Paragraph([], runs));
  }

  method GenerateThanksSection(doc: Container, d: ReportData)
    modifies doc
    ensures doc.blocks == old(doc.blocks) + ThanksBlocks(d)
  {
    doc.Add(CentredHeading("REMERCIEMENTS"));
    doc.Add(Paragraph([], [Text(OpeningThanks(d), [])]));
    if d.tuteurNom != "" {
      AddTutorParagraph(doc, d.tuteurNom, d.tuteurPoste, CompanyTutorLead, CompanyTutorTail);
    }
    if d.tuteurAcademiqueNom != "" {
      AddTutorParagraph(doc, d.tuteurAcademiqueNom, d.tuteurAcademiquePoste, AcademicTutorLead, AcademicTutorTail);
    }
    doc.Add(GreyParagraph("[Compléter les remerciements...]"));
    doc.Add(PageBreak);
  }

  /**
   * The thanks section always has its heading, opening paragraph, closing
   * placeholder and page break; it has one tutor paragraph per tutor whose
   * name is given (so from four to six blocks), and a poste appears in a
   * tutor paragraph exactly when it is given.
   */
  lemma {:induction false} ThanksShape(d: ReportData)
    ensures var bs := ThanksBlocks(d);
      |bs| == 4 + (if d.tuteurNom != "" then 1 else 0) + (if d.tuteurAcademiqueNom != "" then 1 else 0)
      && bs[0] == CentredHeading("REMERCIEMENTS")
      && bs[1].runs == [Text(OpeningThanks(d), [])]
      && bs[|bs| - 1] == PageBreak
      && (d.tuteurNom != "" ==> bs[2].runs == TutorRuns(d.tuteurNom, d.tuteurPoste, CompanyTutorLead, CompanyTutorTail))
  {
  }

  /** A tutor paragraph has three runs with a poste and two without. */
  lemma {:induction false} TutorRunsShape(name: string, poste: string, lead: string, tail: string)
    ensures var rs := TutorRuns(name, poste, lead, tail);
      |rs| == (if poste != "" then 3 else 2) && rs[0] == Text(lead + name, []) && rs[|rs| - 1] == Text(tail, [])
  {
  }

  /** `generate_abstract_section`: the French and English placeholders, then a page break. */
  const AbstractBlocks: seq<Block> := [
    CentredHeading("RÉSUMÉ"), GreyParagraph("[Résumé du rapport en français...]"), EmptyParagraph,
    Heading(2, "Abstract", []), GreyParagraph("[English abstract...]"), PageBreak]

  method GenerateAbstractSection(doc: Container)
    modifies doc
    ensures doc.blocks == old(doc.blocks) + AbstractBlocks
  {
    doc.Add(CentredHeading("RÉSUMÉ"));
    doc.Add(GreyParagraph("[Résumé du rapport en français...]"));
    doc.Add(EmptyParagraph);
    doc.Add(Heading(2, "Abstract", []));
    doc.Add(GreyParagraph("[English abstract...]"));
    doc.Add(PageBreak);
  }

  /** `generate_annexes_section`: a title, one annex heading and its placeholder, no page break. */
  const AnnexesBlocks: seq<Block> := [
    CentredHeading("ANNEXES"), Heading(2, "Annexe A - [Titre]", []), GreyParagraph("[Contenu de l'annexe...]")]

  method GenerateAnnexesSection(doc: Container)
    modifies doc
    ensures doc.blocks == old(doc.blocks) + AnnexesBlocks
  {
    doc.Add(CentredHeading("ANNEXES"));
    doc.Add(Heading(2, "Annexe A - [Titre]", []));
    doc.Add(GreyParagraph("[Contenu de l'annexe...]"));
  }

  /**
   * The table of contents, thanks and abstract sections end in a page break;
   * the annexes section, the last of the report, does not contain one.
   */
  lemma {:induction false} SectionEndings(d: ReportData)
    ensures TocSectionBlocks(d)[|TocSectionBlocks(d)| - 1] == PageBreak
    ensures ThanksBlocks(d)[|ThanksBlocks(d)| - 1] == PageBreak
    ensures AbstractBlocks[|AbstractBlocks| - 1] == PageBreak
    ensures PageBreaks(AnnexesBlocks) == 0
  {
    assert AnnexesBlocks[1..] == [AnnexesBlocks[1], AnnexesBlocks[2]];
    PairNoBreak(AnnexesBlocks[1], AnnexesBlocks[2]);
  }
}
