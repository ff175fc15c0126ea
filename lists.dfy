// The three list editors beside the outline: the glossary, the list of
// figures and the Gantt tasks. Each adds an item built from trimmed form
// inputs, or nothing when a required input is blank, and deletes an item
// with `Array.prototype.splice(index, 1)`.
module ListEditors {
  import opened Text
  import opened Schemas

  // ---------------------------------------------------------------------
  // splice(index, 1)
  // ---------------------------------------------------------------------

  /** Where `splice` starts: a negative index counts from the end (clamped at 0), a large one clamps to the length. */
  function SpliceStart(len: nat, start: int): (a: nat)
    ensures a <= len
  {
    if start < 0 then (if len + start < 0 then 0 else len + start)
    else if start > len then len else start
  }

  /** `s.splice(start, 1)` on the array: the element at the start is removed, if there is one. */
  function SpliceOne<T>(s: seq<T>, start: int): (r: seq<T>)
  {
    var a := SpliceStart(|s|, start);
    if a < |s| then s[..a] + s[a + 1..] else s
  }

  /**
   * Deleting at an index of the list removes exactly that item; an index
   * from the end removes the item that far from the end; past the end
   * nothing is removed.
   */
  lemma {:induction false} SpliceRemoves<T>(s: seq<T>, start: int)
    ensures 0 <= start < |s| ==> SpliceOne(s, start) == s[..start] + s[start + 1..]
    ensures -|s| <= start < 0 ==> SpliceOne(s, start) == s[..|s| + start] + s[|s| + start + 1..]
    ensures start >= |s| ==> SpliceOne(s, start) == s
    ensures s != [] ==> |SpliceOne(s, start)| == if start >= |s| then |s| else |s| - 1
  {
  }

  /** What `splice` leaves is a sub-list: the items that remain are each from the list, the multiset shrinks. */
  lemma {:induction false} SpliceKeepsItems<T>(s: seq<T>, start: int)
    ensures multiset(SpliceOne(s, start)) <= multiset(s)
    ensures forall x :: x in SpliceOne(s, start) ==> x in s
  {
    var a := SpliceStart(|s|, start);
    if a < |s| {
      assert s == s[..a] + [s[a]] + s[a + 1..];
      assert multiset(s) == multiset(s[..a]) + multiset([s[a]]) + multiset(s[a + 1..]);
    }
  }

  // ---------------------------------------------------------------------
  // Adding
  // ---------------------------------------------------------------------

  predicate Trimmed(s: string)
  {
    JsTrim(s) == s
  }

  /** `addGlossaryItem`: the trimmed term, and the trimmed definition or "[Définition]"; nothing for a blank term. */
  function AddGlossary(g: seq<GlossaryItem>, termInput: string, definitionInput: string): seq<GlossaryItem>
  {
    var term := JsTrim(termInput);
    var definition := JsTrim(definitionInput);
    if term == "" then g else g + [GlossaryItem(term, Or(definition, "[Définition]"))]
  }

  /** `addFigure`: the trimmed name, and the trimmed page or "-"; nothing for a blank name. */
  function AddFigure(f: seq<FigureItem>, nameInput: string, pageInput: string): seq<FigureItem>
  {
    var name := JsTrim(nameInput);
    var page := JsTrim(pageInput);
    if name == "" then f else f + [FigureItem(name, Or(page, "-"))]
  }

  /** `addGanttTask`: the trimmed task with the two dates as given; nothing when any of the three is blank. */
  function AddGantt(ts: seq<GanttTask>, taskInput: string, start: string, end: string): seq<GanttTask>
  {
    var task := JsTrim(taskInput);
    if task == "" || start == "" || end == "" then ts else ts + [GanttTask(task, start, end)]
  }

  /**
   * Adding appends at most one item and keeps the earlier ones; it appends
   * exactly when the term has a non-blank character.
   */
  lemma {:induction false} AddGlossaryAppends(g: seq<GlossaryItem>, termInput: string, definitionInput: string)
    ensures var r := AddGlossary(g, termInput, definitionInput);
      |r| <= |g| + 1 && r[..|g|] == g &&
      (|r| == |g| + 1 <==> exists i :: 0 <= i < |termInput| && !IsJsSpace(termInput[i]))
  {
    TrimEmpty(termInput, IsJsSpace);
  }

  lemma {:induction false} AddFigureAppends(f: seq<FigureItem>, nameInput: string, pageInput: string)
    ensures var r := AddFigure(f, nameInput, pageInput);
      |r| <= |f| + 1 && r[..|f|] == f &&
      (|r| == |f| + 1 <==> exists i :: 0 <= i < |nameInput| && !IsJsSpace(nameInput[i]))
  {
    TrimEmpty(nameInput, IsJsSpace);
  }

  lemma {:induction false} AddGanttAppends(ts: seq<GanttTask>, taskInput: string, start: string, end: string)
    ensures var r := AddGantt(ts, taskInput, start, end);
      |r| <= |ts| + 1 && r[..|ts|] == ts &&
      (|r| == |ts| + 1 <==> (exists i :: 0 <= i < |taskInput| && !IsJsSpace(taskInput[i])) && start != "" && end != "")
  {
    TrimEmpty(taskInput, IsJsSpace);
  }

  // ---------------------------------------------------------------------
  // What the editors keep true of their lists
  // ---------------------------------------------------------------------

  /** Every glossary item has a trimmed, non-empty term and a trimmed, non-empty definition. */
  predicate GlossaryValid(g: seq<GlossaryItem>)
  {
    forall e :: e in g ==> e.term != "" && Trimmed(e.term) && e.definition != "" && Trimmed(e.definition)
  }

  /** Every figure has a trimmed, non-empty name and a trimmed, non-empty page. */
  predicate FiguresValid(f: seq<FigureItem>)
  {
    forall e :: e in f ==> e.name != "" && Trimmed(e.name) && e.page != "" && Trimmed(e.page)
  }

  /** Every task has a trimmed, non-empty name and two non-empty dates. */
  predicate GanttValid(ts: seq<GanttTask>)
  {
    forall e :: e in ts ==> e.task != "" && Trimmed(e.task) && e.start != "" && e.end != ""
  }

  /** The two placeholders the editors store have no whitespace at either end. */
  lemma {:induction false} DefaultsTrimmed()
    ensures Trimmed("[Définition]") && Trimmed("-")
  {
    TrimUnspaced("[Définition]", IsJsSpace);
    TrimUnspaced("-", IsJsSpace);
  }

  /** The trimmed input, or a trimmed non-empty default when it is blank, is trimmed and non-empty. */
  lemma {:induction false} TrimmedOrDefault(input: string, default: string)
    requires default != "" && Trimmed(default)
    ensures var v := Or(JsTrim(input), default); v != "" && Trimmed(v)
  {
    TrimIdempotent(input, IsJsSpace);
  }

  lemma {:induction false} AddGlossaryKeepsValid(g: seq<GlossaryItem>, termInput: string, definitionInput: string)
    requires GlossaryValid(g)
    ensures GlossaryValid(AddGlossary(g, termInput, definitionInput))
  {
    TrimIdempotent(termInput, IsJsSpace);
    DefaultsTrimmed();
    TrimmedOrDefault(definitionInput, "[Définition]");
  }

  lemma {:induction false} AddFigureKeepsValid(f: seq<FigureItem>, nameInput: string, pageInput: string)
    requires FiguresValid(f)
    ensures FiguresValid(AddFigure(f, nameInput, pageInput))
  {
    TrimIdempotent(nameInput, IsJsSpace);
    DefaultsTrimmed();
    TrimmedOrDefault(pageInput, "-");
  }

  lemma {:induction false} AddGanttKeepsValid(ts: seq<GanttTask>, taskInput: string, start: string, end: string)
    requires GanttValid(ts)
    ensures GanttValid(AddGantt(ts, taskInput, start, end))
  {
    TrimIdempotent(taskInput, IsJsSpace);
  }

  lemma {:induction false} DeleteKeepsValid(g: seq<GlossaryItem>, f: seq<FigureItem>, ts: seq<GanttTask>, i: int, j: int, k: int)
    requires GlossaryValid(g) && FiguresValid(f) && GanttValid(ts)
    ensures GlossaryValid(SpliceOne(g, i)) && FiguresValid(SpliceOne(f, j)) && GanttValid(SpliceOne(ts, k))
  {
    SpliceKeepsItems(g, i);
    SpliceKeepsItems(f, j);
    SpliceKeepsItems(ts, k);
  }
}
