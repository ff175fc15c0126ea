// The outline as the editor renders it (`renderChapters` and
// `createChapterElement`): one row per chapter, sub-chapter and
// sub-sub-chapter, each with its number, its title, its buttons, and the
// index its move buttons pass on.
module ChapterRows {
  import opened Text
  import opened Schemas
  import opened Toc

  /**
   * One rendered row: the number shown, the chapter's id, title and level,
   * whether the "+" button is shown (`level < 3`), whether the move buttons
   * are shown (top level only), and the index handed to `moveChapter`.
   */
  datatype Row = Row(number: string, id: int, title: string, level: int, canAddSub: bool, canMove: bool, index: int)

  /** `createChapterElement(chapter, index, number, parentIndex)`: `top` is `parentIndex === null`. */
  function RowOf(c: ChapterItem, index: int, number: string, top: bool): Row
  {
    Row(number, c.id, c.title, c.level, c.level < 3, top, index)
  }

  function Number2(i: nat, j: nat): string
  {
    NatToString(i) + "." + NatToString(j)
  }

  function Number3(i: nat, j: nat, k: nat): string
  {
    Number2(i, j) + "." + NatToString(k)
  }

  /** The rows of the first `n` grandchildren of sub-chapter `i.j`. */
  function SubSubRows(i: nat, j: nat, gs: seq<ChapterItem>, n: nat): seq<Row>
    requires n <= |gs|
  {
    if n == 0 then [] else SubSubRows(i, j, gs, n - 1) + [RowOf(gs[n - 1], n - 1, Number3(i, j, n), false)]
  }

  /** Sub-chapter `i.j`'s row followed by those of its children. */
  function SubChapterRows(i: nat, j: nat, sub: ChapterItem): seq<Row>
  {
    [RowOf(sub, j - 1, Number2(i, j), false)] + SubSubRows(i, j, sub.children, |sub.children|)
  }

  /** The rows of the first `n` sub-chapters of chapter `i`. */
  function SubRows(i: nat, subs: seq<ChapterItem>, n: nat): seq<Row>
    requires n <= |subs|
  {
    if n == 0 then [] else SubRows(i, subs, n - 1) + SubChapterRows(i, n, subs[n - 1])
  }

  function ChapterRowsOf(i: nat, ch: ChapterItem): seq<Row>
  {
    [RowOf(ch, i - 1, NatToString(i), true)] + SubRows(i, ch.children, |ch.children|)
  }

  /** The rows of the first `n` chapters, chapter `i` numbered `i`. */
  function ChaptersRows(chs: seq<ChapterItem>, n: nat): seq<Row>
    requires n <= |chs|
  {
    if n == 0 then [] else ChaptersRows(chs, n - 1) + ChapterRowsOf(n, chs[n - 1])
  }

  // ---------------------------------------------------------------------
  // The loops of renderChapters
  // ---------------------------------------------------------------------

  /** `sub.children.forEach(...)`: the rows of the grandchildren of sub-chapter `i.j`. */
  method RenderSubSub(i: nat, j: nat, gs: seq<ChapterItem>) returns (rows: seq<Row>)
    ensures rows == SubSubRows(i, j, gs, |gs|)
  {
    rows := [];
    var n := 0;
    while n < |gs|
      invariant n <= |gs|
      invariant rows == SubSubRows(i, j, gs, n)
    {
      rows := rows + [RowOf(gs[n], n, Number3(i, j, n + 1), false)];
      n := n + 1;
    }
  }

  /** `chapter.children.forEach(...)`: each sub-chapter's row, then its children's. */
  method RenderSubs(i: nat, subs: seq<ChapterItem>) returns (rows: seq<Row>)
    ensures rows == SubRows(i, subs, |subs|)
  {
    rows := [];
    var n := 0;
    while n < |subs|
      invariant n <= |subs|
      invariant rows == SubRows(i, subs, n)
    {
      var below := RenderSubSub(i, n + 1, subs[n].children);
      rows := rows + ([RowOf(subs[n], n, Number2(i, n + 1), false)] + below);
      n := n + 1;
    }
  }

  /** `renderChapters`: each chapter's row numbered by `chapterNum`, then its sub-chapters'. */
  method RenderChapters(chs: seq<ChapterItem>) returns (rows: seq<Row>)
    ensures rows == ChaptersRows(chs, |chs|)
  {
    rows := [];
    var chapterNum := 0;
    while chapterNum < |chs|
      invariant chapterNum <= |chs|
      invariant rows == ChaptersRows(chs, chapterNum)
    {
      var below := RenderSubs(chapterNum + 1, chs[chapterNum].children);
      rows := rows + ([RowOf(chs[chapterNum], chapterNum, NatToString(chapterNum + 1), true)] + below);
      chapterNum := chapterNum + 1;
    }
  }

  // ---------------------------------------------------------------------
  // The editor's numbering is the table of contents' numbering
  // ---------------------------------------------------------------------

  /** What a row reads as: its number, a dot, its title. */
  function Label(r: Row): string
  {
    r.number + ". " + r.title
  }

  /** Row for row, the labels are the entry texts. */
  predicate SameTexts(rows: seq<Row>, es: seq<TocEntry>)
  {
    |rows| == |es| && forall k :: 0 <= k < |rows| ==> Label(rows[k]) == es[k].text
  }

  lemma {:induction false} SameTextsAppend(r1: seq<Row>, e1: seq<TocEntry>, r2: seq<Row>, e2: seq<TocEntry>)
    requires SameTexts(r1, e1) && SameTexts(r2, e2)
    ensures SameTexts(r1 + r2, e1 + e2)
  {
    forall k | 0 <= k < |r1 + r2|
      ensures Label((r1 + r2)[k]) == (e1 + e2)[k].text
    {
      if k >= |r1| {
        assert (r1 + r2)[k] == r2[k - |r1|] && (e1 + e2)[k] == e2[k - |r1|];
      }
    }
  }

  lemma {:induction false} SubSubRowsMatch(i: nat, j: nat, gs: seq<ChapterItem>, n: nat, page: nat)
    requires n <= |gs|
    ensures SameTexts(SubSubRows(i, j, gs, n), SubSubEntries(i, j, gs, n, page))
  {
    if n > 0 {
      SubSubRowsMatch(i, j, gs, n - 1, page);
      SameTextsAppend(SubSubRows(i, j, gs, n - 1), SubSubEntries(i, j, gs, n - 1, page),
        [RowOf(gs[n - 1], n - 1, Number3(i, j, n), false)], [TocEntry(Label3(i, j, n, gs[n - 1].title), 3, page)]);
    }
  }

  lemma {:induction false} SubChapterRowsMatch(i: nat, j: nat, sub: ChapterItem, page: nat)
    ensures SameTexts(SubChapterRows(i, j, sub), SubChapterEntries(i, j, sub, page))
  {
    SubSubRowsMatch(i, j, sub.children, |sub.children|, page);
    SameTextsAppend([RowOf(sub, j - 1, Number2(i, j), false)], [TocEntry(Label2(i, j, sub.title), 2, page)],
      SubSubRows(i, j, sub.children, |sub.children|), SubSubEntries(i, j, sub.children, |sub.children|, page));
  }

  lemma {:induction false} SubRowsMatch(i: nat, subs: seq<ChapterItem>, n: nat, page: nat)
    requires n <= |subs|
    ensures SameTexts(SubRows(i, subs, n), SubEntries(i, subs, n, page))
  {
    if n > 0 {
      SubRowsMatch(i, subs, n - 1, page);
      SubChapterRowsMatch(i, n, subs[n - 1], page);
      SameTextsAppend(SubRows(i, subs, n - 1), SubEntries(i, subs, n - 1, page),
        SubChapterRows(i, n, subs[n - 1]), SubChapterEntries(i, n, subs[n - 1], page));
    }
  }

  lemma {:induction false} ChapterRowsMatch(i: nat, ch: ChapterItem, page: nat)
    ensures SameTexts(ChapterRowsOf(i, ch), ChapterEntries(i, ch, page))
  {
    SubRowsMatch(i, ch.children, |ch.children|, page);
    SameTextsAppend([RowOf(ch, i - 1, NatToString(i), true)], [TocEntry(Label1(i, ch.title), 1, page)],
      SubRows(i, ch.children, |ch.children|), SubEntries(i, ch.children, |ch.children|, page));
  }

  /**
   * The outline the editor shows and the table of contents of the report
   * list the same lines in the same order: row for row, "number. title" is
   * the entry's text, whatever pages the entries carry.
   */
  lemma {:induction false} RowsMatchToc(chs: seq<ChapterItem>, n: nat, first: nat)
    requires n <= |chs|
    ensures SameTexts(ChaptersRows(chs, n), ChaptersEntries(chs, n, first))
  {
    if n > 0 {
      RowsMatchToc(chs, n - 1, first);
      ChapterRowsMatch(n, chs[n - 1], first + n - 1);
      SameTextsAppend(ChaptersRows(chs, n - 1), ChaptersEntries(chs, n - 1, first),
        ChapterRowsOf(n, chs[n - 1]), ChapterEntries(n, chs[n - 1], first + n - 1));
    }
  }

  // ---------------------------------------------------------------------
  // The move buttons
  // ---------------------------------------------------------------------

  /** The (index, id) of every row that shows the move buttons, in order. */
  function Movable(rows: seq<Row>): seq<(int, int)>
  {
    if rows == [] then []
    else (if rows[0].canMove then [(rows[0].index, rows[0].id)] else []) + Movable(rows[1..])
  }

  lemma {:induction false} MovableAppend(a: seq<Row>, b: seq<Row>)
    ensures Movable(a + b) == Movable(a) + Movable(b)
    decreases |a|
  {
    if a == [] {
      assert a + b == b;
    } else {
      var ab := a + b;
      assert ab != [] && ab[0] == a[0] && ab[1..] == a[1..] + b;
      MovableAppend(a[1..], b);
      var h := if a[0].canMove then [(a[0].index, a[0].id)] else [];
      assert Movable(ab) == h + Movable(a[1..] + b);
      assert Movable(a) == h + Movable(a[1..]);
      assert h + (Movable(a[1..]) + Movable(b)) == (h + Movable(a[1..])) + Movable(b);
    }
  }

  lemma {:induction false} SubSubRowsFixed(i: nat, j: nat, gs: seq<ChapterItem>, n: nat)
    requires n <= |gs|
    ensures Movable(SubSubRows(i, j, gs, n)) == []
  {
    if n > 0 {
      SubSubRowsFixed(i, j, gs, n - 1);
      MovableAppend(SubSubRows(i, j, gs, n - 1), [RowOf(gs[n - 1], n - 1, Number3(i, j, n), false)]);
    }
  }

  lemma {:induction false} SubRowsFixed(i: nat, subs: seq<ChapterItem>, n: nat)
    requires n <= |subs|
    ensures Movable(SubRows(i, subs, n)) == []
  {
    if n > 0 {
      var sub := subs[n - 1];
      SubRowsFixed(i, subs, n - 1);
      SubSubRowsFixed(i, n, sub.children, |sub.children|);
      MovableAppend([RowOf(sub, n - 1, Number2(i, n), false)], SubSubRows(i, n, sub.children, |sub.children|));
      MovableAppend(SubRows(i, subs, n - 1), SubChapterRows(i, n, sub));
    }
  }

  /** The (index, id) of each of the first `n` chapters. */
  function TopLevel(chs: seq<ChapterItem>, n: nat): seq<(int, int)>
    requires n <= |chs|
  {
    if n == 0 then [] else TopLevel(chs, n - 1) + [(n - 1, chs[n - 1].id)]
  }

  /**
   * Exactly the chapters show the move buttons, once each and in order, and
   * the index each row passes to `moveChapter` is its own chapter's
   * position; no sub-chapter can be moved.
   */
  lemma {:induction false} MoveButtonsOnChapters(chs: seq<ChapterItem>, n: nat)
    requires n <= |chs|
    ensures Movable(ChaptersRows(chs, n)) == TopLevel(chs, n)
  {
    if n > 0 {
      var ch := chs[n - 1];
      MoveButtonsOnChapters(chs, n - 1);
      SubRowsFixed(n, ch.children, |ch.children|);
      MovableAppend([RowOf(ch, n - 1, NatToString(n), true)], SubRows(n, ch.children, |ch.children|));
      MovableAppend(ChaptersRows(chs, n - 1), ChapterRowsOf(n, ch));
    }
  }
}
