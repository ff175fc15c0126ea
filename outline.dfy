// The editor's state and its handlers: the four arrays the page keeps
// (`chapters`, `glossary`, `figures`, `ganttTasks`), the default outline a
// new report starts from, and each button's handler as a method on that
// state. Ids the page takes from `Date.now()` are parameters; the rows a
// handler renders are its result.
module OutlineEditor {
  import opened Text
  import opened Schemas
  import opened Sections
  import opened Editor
  import opened ChapterRows
  import opened ListEditors

  // ---------------------------------------------------------------------
  // The default outline
  // ---------------------------------------------------------------------

  /** `initDefaultChapters`' outline: six chapters, the second with two sections. */
  const DefaultChapters := [
    ChapterItem(1, "Introduction", 1, []),
    ChapterItem(2, "Présentation de l'entreprise", 1, [
      ChapterItem(21, "Histoire et activités", 2, []),
      ChapterItem(22, "Organisation", 2, [])]),
    ChapterItem(3, "Missions et objectifs", 1, []),
    ChapterItem(4, "Travail réalisé", 1, []),
    ChapterItem(5, "Bilan", 1, []),
    ChapterItem(6, "Conclusion", 1, [])]

  /**
   * The default chapters are the six keyword groups of the report's chapter
   * hints, in the same order: chapter `g` of a fresh outline gets hint `g`
   * in the generated report.
   */
  lemma {:induction false} DefaultChaptersGetGroupHints()
    ensures |DefaultChapters| == |GroupHints|
    ensures forall g :: 0 <= g < 6 ==> ChapterHint(DefaultChapters[g].title) == GroupHints[g]
  {
    forall g | 0 <= g < 6
      ensures ChapterHint(DefaultChapters[g].title) == GroupHints[g]
    {
      if g == 0 {
        IntroductionGetsItsHint();
      } else if g == 1 {
        CompanyGetsItsHint();
      } else if g == 2 {
        MissionsGetItsHint();
      } else if g == 3 {
        WorkGetsItsHint();
      } else if g == 4 {
        ReviewGetsItsHint();
      } else {
        ConclusionGetsItsHint();
      }
    }
  }

  lemma {:induction false} IntroductionGetsItsHint()
    ensures ChapterHint("Introduction") == IntroductionHint
  {
    var s := "Introduction";
    LowerWordIntroduction();
    StartsWithWord(s, "Introduction", "introduction");
  }

  lemma {:induction false} LowerWordIntroduction()
    ensures "Introduction"[..12] == "Introduction" && Lower("Introduction") == "introduction"
  {
    var w := "Introduction";
    assert LowerChar(w[0]) == 'i';
    assert forall k :: 1 <= k < |w| ==> !IsUpper(w[k]);
  }

  lemma {:induction false} CompanyGetsItsHint()
    ensures ChapterHint("Présentation de l'entreprise") == CompanyHint
  {
    var s := "Présentation de l'entreprise";
    CompanyLacks();
    MissingCharNotContained(Lower(s), "introduction", 'u');
    LowerWordCompany();
    StartsWithWord(s, "Présentation", "présentation");
  }

  lemma {:induction false} CompanyLacks()
    ensures 'u' !in Lower("Présentation de l'entreprise")
  {
    var s := "Présentation de l'entreprise";
    assert forall k :: 0 <= k < |s| ==> LowerChar(s[k]) != 'u';
  }

  lemma {:induction false} LowerWordCompany()
    ensures "Présentation de l'entreprise"[..12] == "Présentation" && Lower("Présentation") == "présentation"
  {
    var w := "Présentation";
    assert LowerChar(w[0]) == 'p';
    assert forall k :: 1 <= k < |w| ==> !IsUpper(w[k]);
  }

  lemma {:induction false} MissionsGetItsHint()
    ensures ChapterHint("Missions et objectifs") == MissionHint
  {
    var s := "Missions et objectifs";
    MissionsLacks();
    MissingCharNotContained(Lower(s), "introduction", 'u');
    MissingCharNotContained(Lower(s), "entreprise", 'p');
    MissingCharNotContained(Lower(s), "présentation", 'p');
    LowerWordMissions();
    StartsWithWord(s, "Mission", "mission");
  }

  lemma {:induction false} MissionsLacks()
    ensures 'u' !in Lower("Missions et objectifs") && 'p' !in Lower("Missions et objectifs")
  {
    var s := "Missions et objectifs";
    assert forall k :: 0 <= k < |s| ==> LowerChar(s[k]) != 'u' && LowerChar(s[k]) != 'p';
  }

  lemma {:induction false} LowerWordMissions()
    ensures "Missions et objectifs"[..7] == "Mission" && Lower("Mission") == "mission"
  {
    var w := "Mission";
    assert LowerChar(w[0]) == 'm';
    assert forall k :: 1 <= k < |w| ==> !IsUpper(w[k]);
  }

  lemma {:induction false} WorkGetsItsHint()
    ensures ChapterHint("Travail réalisé") == WorkHint
  {
    var s := "Travail réalisé";
    WorkLacks();
    MissingCharNotContained(Lower(s), "introduction", 'u');
    MissingCharNotContained(Lower(s), "entreprise", 'p');
    MissingCharNotContained(Lower(s), "présentation", 'p');
    MissingCharNotContained(Lower(s), "mission", 'm');
    LowerWordWork();
    StartsWithWord(s, "Travail", "travail");
  }

  lemma {:induction false} WorkLacks()
    ensures 'u' !in Lower("Travail réalisé") && 'p' !in Lower("Travail réalisé") && 'm' !in Lower("Travail réalisé")
  {
    var s := "Travail réalisé";
    assert forall k :: 0 <= k < |s| ==> LowerChar(s[k]) != 'u' && LowerChar(s[k]) != 'p' && LowerChar(s[k]) != 'm';
  }

  lemma {:induction false} LowerWordWork()
    ensures "Travail réalisé"[..7] == "Travail" && Lower("Travail") == "travail"
  {
    var w := "Travail";
    assert LowerChar(w[0]) == 't';
    assert forall k :: 1 <= k < |w| ==> !IsUpper(w[k]);
  }

  lemma {:induction false} ReviewGetsItsHint()
    ensures ChapterHint("Bilan") == ReviewHint
  {
    var s := "Bilan";
    ReviewLacks();
    MissingCharNotContained(Lower(s), "introduction", 'r');
    MissingCharNotContained(Lower(s), "entreprise", 'r');
    MissingCharNotContained(Lower(s), "présentation", 'r');
    MissingCharNotContained(Lower(s), "mission", 'm');
    MissingCharNotContained(Lower(s), "travail", 'r');
    MissingCharNotContained(Lower(s), "réalis", 'r');
    LowerWordReview();
    StartsWithWord(s, "Bilan", "bilan");
  }

  lemma {:induction false} ReviewLacks()
    ensures 'r' !in Lower("Bilan") && 'm' !in Lower("Bilan")
  {
    var s := "Bilan";
    assert forall k :: 0 <= k < |s| ==> LowerChar(s[k]) != 'r' && LowerChar(s[k]) != 'm';
  }

  lemma {:induction false} LowerWordReview()
    ensures "Bilan"[..5] == "Bilan" && Lower("Bilan") == "bilan"
  {
    var w := "Bilan";
    assert LowerChar(w[0]) == 'b';
    assert forall k :: 1 <= k < |w| ==> !IsUpper(w[k]);
  }

  lemma {:induction false} ConclusionGetsItsHint()
    ensures ChapterHint("Conclusion") == ConclusionHint
  {
    var s := "Conclusion";
    ConclusionLacks();
    MissingCharNotContained(Lower(s), "introduction", 't');
    MissingCharNotContained(Lower(s), "entreprise", 't');
    MissingCharNotContained(Lower(s), "présentation", 't');
    MissingCharNotContained(Lower(s), "mission", 'm');
    MissingCharNotContained(Lower(s), "travail", 't');
    MissingCharNotContained(Lower(s), "réalis", 'r');
    MissingCharNotContained(Lower(s), "bilan", 'b');
    LowerWordConclusion();
    StartsWithWord(s, "Conclusion", "conclusion");
  }

  lemma {:induction false} ConclusionLacks()
    ensures 't' !in Lower("Conclusion") && 'r' !in Lower("Conclusion") && 'm' !in Lower("Conclusion") && 'b' !in Lower("Conclusion")
  {
    var s := "Conclusion";
    assert forall k :: 0 <= k < |s| ==> LowerChar(s[k]) != 't' && LowerChar(s[k]) != 'r' && LowerChar(s[k]) != 'm' && LowerChar(s[k]) != 'b';
  }

  lemma {:induction false} LowerWordConclusion()
    ensures "Conclusion"[..10] == "Conclusion" && Lower("Conclusion") == "conclusion"
  {
    var w := "Conclusion";
    assert LowerChar(w[0]) == 'c';
    assert forall k :: 1 <= k < |w| ==> !IsUpper(w[k]);
  }

  /** A title whose first word lower-cases to the keyword contains the keyword once lower-cased. */
  lemma {:induction false} StartsWithWord(s: string, word: string, kw: string)
    requires |word| <= |s| && s[..|word|] == word && Lower(word) == kw
    ensures Contains(Lower(s), kw)
  {
    assert Lower(s)[..|word|] == Lower(word);
    assert OccursAt(Lower(s), kw, 0);
  }

  // ---------------------------------------------------------------------
  // The new chapters the buttons create
  // ---------------------------------------------------------------------

  /** `addChapter`'s new chapter. */
  function NewChapter(id: int): ChapterItem
  {
    ChapterItem(id, "Nouveau chapitre", 1, [])
  }

  /** `addSubChapter(parentId, parentLevel)`'s new child: one level down, titled by the level it lands on. */
  function NewSubChapter(id: int, parentLevel: int): (c: ChapterItem)
    ensures c.id == id && c.level == parentLevel + 1 && c.children == []
    ensures c.title == "Nouvelle section" <==> parentLevel == 1
    ensures c.title == "Nouvelle sous-section" <==> parentLevel != 1
  {
    var newLevel := parentLevel + 1;
    ChapterItem(id, if newLevel == 2 then "Nouvelle section" else "Nouvelle sous-section", newLevel, [])
  }

  // ---------------------------------------------------------------------
  // The page's state
  // ---------------------------------------------------------------------

  class EditorState {
    var chapters: seq<ChapterItem>
    var glossary: seq<GlossaryItem>
    var figures: seq<FigureItem>
    var ganttTasks: seq<GanttTask>

    /** The three lists beside the outline, which the chapter handlers leave alone. */
    function Lists(): (seq<GlossaryItem>, seq<FigureItem>, seq<GanttTask>)
      reads this
    {
      (glossary, figures, ganttTasks)
    }

    /** What the list handlers keep true: every stored item is one an add handler could have built. */
    predicate ListsValid()
      reads this
    {
      GlossaryValid(glossary) && FiguresValid(figures) && GanttValid(ganttTasks)
    }

    /** The page's state before anything is loaded: four empty arrays. */
    constructor()
      ensures chapters == [] && Lists() == ([], [], [])
      ensures ListsValid()
    {
      chapters, glossary, figures, ganttTasks := [], [], [], [];
    }

    /** `initDefaultChapters`: the default outline, only when there is no chapter yet; then the rows are rendered. */
    method InitDefaultChapters() returns (rows: seq<Row>)
      modifies this
      ensures chapters == if old(chapters) == [] then DefaultChapters else old(chapters)
      ensures Lists() == old(Lists())
      ensures rows == ChaptersRows(chapters, |chapters|)
    {
      if |chapters| == 0 {
        chapters := DefaultChapters;
      }
      rows := RenderChapters(chapters);
    }

    /** `addChapter(id)`: a new top-level chapter at the end. */
    method AddChapter(newId: int) returns (rows: seq<Row>)
      modifies this
      ensures chapters == old(chapters) + [NewChapter(newId)]
      ensures Lists() == old(Lists())
      ensures rows == ChaptersRows(chapters, |chapters|)
    {
      chapters := chapters + [ChapterItem(newId, "Nouveau chapitre", 1, [])];
      rows := RenderChapters(chapters);
    }

    /** `addSubChapter(parentId, parentLevel)` with the new child's id. */
    method AddSubChapter(parentId: int, parentLevel: int, newId: int) returns (rows: seq<Row>)
      modifies this
      ensures chapters == AddChild(old(chapters), parentId, NewSubChapter(newId, parentLevel)).0
      ensures Lists() == old(Lists())
      ensures rows == ChaptersRows(chapters, |chapters|)
    {
      var newLevel := parentLevel + 1;
      var newTitle := if newLevel == 2 then "Nouvelle section" else "Nouvelle sous-section";
      var r, _ := FindAndAdd(chapters, parentId, ChapterItem(newId, newTitle, newLevel, []));
      chapters := r;
      rows := RenderChapters(chapters);
    }

    /** `updateChapterTitle(id, title)`: renames without rendering the rows again. */
    method UpdateChapterTitle(id: int, title: string)
      modifies this
      ensures chapters == Rename(old(chapters), id, title)
      ensures Lists() == old(Lists())
    {
      chapters := Find(chapters, id, title);
    }

    /** `deleteChapter(id)`. */
    method DeleteChapter(id: int) returns (rows: seq<Row>)
      modifies this
      ensures chapters == Delete(old(chapters), id).0
      ensures Lists() == old(Lists())
      ensures rows == ChaptersRows(chapters, |chapters|)
    {
      var r, _ := FindAndDelete(chapters, id);
      chapters := r;
      rows := RenderChapters(chapters);
    }

    /**
     * `moveChapter(index, direction)`, from the row of chapter `index`: the
     * rows are rendered again only when the move happens.
     */
    method MoveChapter(index: int, direction: int) returns (rendered: bool, rows: seq<Row>)
      requires 0 <= index < |chapters|
      modifies this
      ensures chapters == Moved(old(chapters), index, direction)
      ensures rendered <==> 0 <= index + direction < |old(chapters)|
      ensures rendered ==> rows == ChaptersRows(chapters, |chapters|)
      ensures !rendered ==> rows == []
      ensures Lists() == old(Lists())
    {
      var newIndex := index + direction;
      if newIndex < 0 || newIndex >= |chapters| {
        return false, [];
      }
      var moving := chapters[index];
      chapters := chapters[index := chapters[newIndex]][newIndex := moving];
      rows := RenderChapters(chapters);
      rendered := true;
    }

    /** `addGlossaryItem` with the two inputs' values. */
    method AddGlossaryItem(termInput: string, definitionInput: string)
      modifies this
      ensures glossary == AddGlossary(old(glossary), termInput, definitionInput)
      ensures chapters == old(chapters) && figures == old(figures) && ganttTasks == old(ganttTasks)
      ensures old(ListsValid()) ==> ListsValid()
    {
      if ListsValid() {
        AddGlossaryKeepsValid(glossary, termInput, definitionInput);
      }
      var term := JsTrim(termInput);
      var definition := JsTrim(definitionInput);
      if term == "" {
        return;
      }
      glossary := glossary + [GlossaryItem(term, if definition != "" then definition else "[Définition]")];
    }

    /** `deleteGlossaryItem(index)`. */
    method DeleteGlossaryItem(index: int)
      modifies this
      ensures glossary == SpliceOne(old(glossary), index)
      ensures chapters == old(chapters) && figures == old(figures) && ganttTasks == old(ganttTasks)
      ensures old(ListsValid()) ==> ListsValid()
    {
      if ListsValid() {
        DeleteKeepsValid(glossary, figures, ganttTasks, index, 0, 0);
      }
      glossary := SpliceOne(glossary, index);
    }

    /** `addFigure` with the two inputs' values. */
    method AddFigureItem(nameInput: string, pageInput: string)
      modifies this
      ensures figures == AddFigure(old(figures), nameInput, pageInput)
      ensures chapters == old(chapters) && glossary == old(glossary) && ganttTasks == old(ganttTasks)
      ensures old(ListsValid()) ==> ListsValid()
    {
      if ListsValid() {
        AddFigureKeepsValid(figures, nameInput, pageInput);
      }
      var name := JsTrim(nameInput);
      var page := JsTrim(pageInput);
      if name == "" {
        return;
      }
      figures := figures + [FigureItem(name, if page != "" then page else "-")];
    }

    /** `deleteFigure(index)`. */
    method DeleteFigureItem(index: int)
      modifies this
      ensures figures == SpliceOne(old(figures), index)
      ensures chapters == old(chapters) && glossary == old(glossary) && ganttTasks == old(ganttTasks)
      ensures old(ListsValid()) ==> ListsValid()
    {
      if ListsValid() {
        DeleteKeepsValid(glossary, figures, ganttTasks, 0, index, 0);
      }
      figures := SpliceOne(figures, index);
    }

    /** `addGanttTask` with the three inputs' values. */
    method AddGanttTask(taskInput: string, start: string, end: string)
      modifies this
      ensures ganttTasks == AddGantt(old(ganttTasks), taskInput, start, end)
      ensures chapters == old(chapters) && glossary == old(glossary) && figures == old(figures)
      ensures old(ListsValid()) ==> ListsValid()
    {
      if ListsValid() {
        AddGanttKeepsValid(ganttTasks, taskInput, start, end);
      }
      var task := JsTrim(taskInput);
      if task == "" || start == "" || end == "" {
        return;
      }
      ganttTasks := ganttTasks + [GanttTask(task, start, end)];
    }

    /** `deleteGanttTask(index)`. */
    method DeleteGanttTask(index: int)
      modifies this
      ensures ganttTasks == SpliceOne(old(ganttTasks), index)
      ensures chapters == old(chapters) && glossary == old(glossary) && figures == old(figures)
      ensures old(ListsValid()) ==> ListsValid()
    {
      if ListsValid() {
        DeleteKeepsValid(glossary, figures, ganttTasks, 0, 0, index);
      }
      ganttTasks := SpliceOne(ganttTasks, index);
    }
  }
}
