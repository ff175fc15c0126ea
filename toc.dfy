// The outline numbering shared by the table of contents and the chapter body,
// and the table of contents itself: `create_toc_entry` and `create_toc` with
// its page counter.
module Toc {
  import opened Text
  import opened Document
  import opened Schemas

  // ---------------------------------------------------------------------
  // Positional numbering, 1-based: "i. t", "i.j. t", "i.j.k. t"
  // ---------------------------------------------------------------------

  function Label1(i: nat, t: string): string
  {
    NatToString(i) + ". " + t
  }

  function Label2(i: nat, j: nat, t: string): string
  {
    NatToString(i) + "." + NatToString(j) + ". " + t
  }

  function Label3(i: nat, j: nat, k: nat, t: string): string
  {
    NatToString(i) + "." + NatToString(j) + "." + NatToString(k) + ". " + t
  }

  // ---------------------------------------------------------------------
  // Entries
  // ---------------------------------------------------------------------

  /** One line of the table of contents: its text, its level (1..3) and its page number. */
  datatype TocEntry = TocEntry(text: string, level: nat, page: nat)

  /** The level 3 entries of the first `n` grandchildren of sub-chapter `i.j`. */
  function SubSubEntries(i: nat, j: nat, gs: seq<ChapterItem>, n: nat, page: nat): seq<TocEntry>
    requires n <= |gs|
  {
    if n == 0 then [] else SubSubEntries(i, j, gs, n - 1, page) + [TocEntry(Label3(i, j, n, gs[n - 1].title), 3, page)]
  }

  /** The entry of sub-chapter `i.j` followed by those of its own sub-chapters. */
  function SubChapterEntries(i: nat, j: nat, sub: ChapterItem, page: nat): seq<TocEntry>
  {
    [TocEntry(Label2(i, j, sub.title), 2, page)] + SubSubEntries(i, j, sub.children, |sub.children|, page)
  }

  /** The entries of the first `n` sub-chapters of chapter `i`. */
  function SubEntries(i: nat, subs: seq<ChapterItem>, n: nat, page: nat): seq<TocEntry>
    requires n <= |subs|
  {
    if n == 0 then [] else SubEntries(i, subs, n - 1, page) + SubChapterEntries(i, n, subs[n - 1], page)
  }

  function ChapterEntries(i: nat, ch: ChapterItem, page: nat): seq<TocEntry>
  {
    [TocEntry(Label1(i, ch.title), 1, page)] + SubEntries(i, ch.children, |ch.children|, page)
  }

  /** The entries of the first `n` chapters, chapter `i` on page `first + i - 1`. */
  function ChaptersEntries(chs: seq<ChapterItem>, n: nat, first: nat): seq<TocEntry>
    requires n <= |chs|
  {
    if n == 0 then [] else ChaptersEntries(chs, n - 1, first) + ChapterEntries(n, chs[n - 1], first + n - 1)
  }

  /** The page of the first chapter: 3, plus one for each of thanks and abstract that is included. */
  function FirstChapterPage(d: ReportData): nat
  {
    3 + (if d.includeThanks then 1 else 0) + (if d.includeAbstract then 1 else 0)
  }

  /** The entries before the chapters: thanks on page 3, then the abstract. */
  function FrontEntries(d: ReportData): seq<TocEntry>
  {
    (if d.includeThanks then [TocEntry("REMERCIEMENTS", 1, 3)] else [])
    + (if d.includeAbstract then [TocEntry("RÉSUMÉ", 1, FirstChapterPage(d) - 1)] else [])
  }

  /** The annexes entry, on the page after the last chapter. */
  function AnnexEntries(d: ReportData): seq<TocEntry>
  {
    if d.includeAnnexes then [TocEntry("ANNEXES", 1, FirstChapterPage(d) + |d.chapters|)] else []
  }

  /** Every entry `create_toc` writes, in order. */
  function TocEntries(d: ReportData): (r: seq<TocEntry>)
  {
    FrontEntries(d) + ChaptersEntries(d.chapters, |d.chapters|, FirstChapterPage(d)) + AnnexEntries(d)
  }

  // ---------------------------------------------------------------------
  // The paragraph of one entry
  // ---------------------------------------------------------------------

  /** Left indent by level: 0, 0.75 cm, and 1.5 cm for every other level. */
  function EntryIndentCm(level: nat): real
  {
    if level == 1 then 0.0 else if level == 2 then 0.75 else 1.5
  }

  function TitleTags(level: nat): seq<RunTag>
  {
    if level == 1 then [Bold, SizePt(11)] else if level == 2 then [SizePt(10)] else [SizePt(10), Italic]
  }

  function PageTags(level: nat): seq<RunTag>
  {
    if level == 1 then [SizePt(11), Bold] else [SizePt(10)]
  }

  /** `create_toc_entry(doc, text, level, page)`: the title, a tab to the dotted 15 cm stop, the page. */
  function EntryParagraph(text: string, level: nat, page: string): Block
  {
    Paragraph([NoIndent, SpaceAfterPt(4), LeftIndentCm(EntryIndentCm(level)), RightDotTabCm(15.0)],
      [Text(text, TitleTags(level)), Text("\t", []), Text(page, PageTags(level))])
  }

  function EntryBlock(e: TocEntry): Block
  {
    EntryParagraph(e.text, e.level, NatToString(e.page))
  }

  function EntryBlocks(es: seq<TocEntry>): (bs: seq<Block>)
    ensures |bs| == |es|
  {
    seq(|es|, k requires 0 <= k < |es| => EntryBlock(es[k]))
  }

  lemma {:induction false} EntryBlocksSnoc(es: seq<TocEntry>, e: TocEntry)
    ensures EntryBlocks(es + [e]) == EntryBlocks(es) + [EntryBlock(e)]
  {
    assert EntryBlocks(es + [e])[..|es|] == EntryBlocks(es);
  }

  /** `create_toc_entry` as a call that appends to the document. */
  method CreateTocEntry(doc: Container, text: string, level: nat, page: string)
    modifies doc
    ensures doc.blocks == old(doc.blocks) + [EntryParagraph(text, level, page)]
  {
    var tags := [NoIndent, SpaceAfterPt(4)];
    if level == 1 {
      tags := tags + [LeftIndentCm(0.0)];
    } else if level == 2 {
      tags := tags + [LeftIndentCm(0.75)];
    } else {
      tags := tags + [LeftIndentCm(1.5)];
    }
    tags := tags + [RightDotTabCm(15.0)];
    var title := if level == 1 then [Bold, SizePt(11)] else if level == 2 then [SizePt(10)] else [SizePt(10), Italic];
    var pageRun := [SizePt(if level == 1 then 11 else 10)];
    if level == 1 {
      pageRun := pageRun + [Bold];
    }
    assert tags == [NoIndent, SpaceAfterPt(4), LeftIndentCm(EntryIndentCm(level)), RightDotTabCm(15.0)];
    assert title == TitleTags(level) && pageRun == PageTags(level);
    doc.Add(Paragraph(tags, [Text(text, title), Text("\t", []), Text(page, pageRun)]));
  }

  /** The entry of sub-chapter `i.j` and those of its own sub-chapters, all on `page`. */
  method AddSubChapterEntries(doc: Container, i: nat, j: nat, sub: ChapterItem, page: nat)
    modifies doc
    ensures doc.blocks == old(doc.blocks) + EntryBlocks(SubChapterEntries(i, j, sub, page))
  {
    ghost var head := [TocEntry(Label2(i, j, sub.title), 2, page)];
    CreateTocEntry(doc, Label2(i, j, sub.title), 2, NatToString(page));
    ghost var base := doc.blocks;
    var k := 0;
    while k < |sub.children|
      invariant 0 <= k <= |sub.children|
      invariant doc.blocks == base + EntryBlocks(SubSubEntries(i, j, sub.children, k, page))
    {
      var e := TocEntry(Label3(i, j, k + 1, sub.children[k].title), 3, page);
      SubSubEntriesStep(i, j, sub.children, k, page);
      CreateTocEntry(doc, e.text, 3, NatToString(page));
      AppendEntries(base, SubSubEntries(i, j, sub.children, k, page), [e]);
      k := k + 1;
    }
    EntryBlocksCons(head[0], SubSubEntries(i, j, sub.children, k, page));
  }

  /** The entries of one chapter, its sub-chapters and their sub-chapters, all on `page`. */
  method AddChapterEntries(doc: Container, i: nat, ch: ChapterItem, page: nat)
    modifies doc
    ensures doc.blocks == old(doc.blocks) + EntryBlocks(ChapterEntries(i, ch, page))
  {
    ghost var head := TocEntry(Label1(i, ch.title), 1, page);
    CreateTocEntry(doc, Label1(i, ch.title), 1, NatToString(page));
    ghost var base := doc.blocks;
    var j := 0;
    while j < |ch.children|
      invariant 0 <= j <= |ch.children|
      invariant doc.blocks == base + EntryBlocks(SubEntries(i, ch.children, j, page))
    {
      SubEntriesStep(i, ch.children, j, page);
      AddSubChapterEntries(doc, i, j + 1, ch.children[j], page);
      AppendEntries(base, SubEntries(i, ch.children, j, page), SubChapterEntries(i, j + 1, ch.children[j], page));
      j := j + 1;
    }
    EntryBlocksCons(head, SubEntries(i, ch.children, j, page));
  }

  /** The thanks and abstract entries; gives the page counter as it stands after them. */
  method AddFrontEntries(doc: Container, d: ReportData) returns (pageNum: nat)
    modifies doc
    ensures pageNum == FirstChapterPage(d)
    ensures doc.blocks == old(doc.blocks) + EntryBlocks(FrontEntries(d))
  {
    pageNum := 3;
    if d.includeThanks {
      CreateTocEntry(doc, "REMERCIEMENTS", 1, NatToString(pageNum));
      pageNum := pageNum + 1;
    }
    assert doc.blocks == old(doc.blocks) + EntryBlocks(if d.includeThanks then [TocEntry("REMERCIEMENTS", 1, 3)] else []);
    if d.includeAbstract {
      CreateTocEntry(doc, "RÉSUMÉ", 1, NatToString(pageNum));
      pageNum := pageNum + 1;
    }
    EntryBlocksAppend(if d.includeThanks then [TocEntry("REMERCIEMENTS", 1, 3)] else [],
      if d.includeAbstract then [TocEntry("RÉSUMÉ", 1, FirstChapterPage(d) - 1)] else []);
  }

  /** The loop over the chapters: chapter `i` on page `first + i - 1`; gives the counter after the last. */
  method AddChaptersEntries(doc: Container, chs: seq<ChapterItem>, first: nat) returns (pageNum: nat)
    modifies doc
    ensures pageNum == first + |chs|
    ensures doc.blocks == old(doc.blocks) + EntryBlocks(ChaptersEntries(chs, |chs|, first))
  {
    ghost var base := doc.blocks;
    var idx := 0;
    while idx < |chs|
      invariant 0 <= idx <= |chs|
      invariant doc.blocks == base + EntryBlocks(ChaptersEntries(chs, idx, first))
    {
      ChaptersEntriesStep(chs, idx, first);
      AddChapterEntries(doc, idx + 1, chs[idx], first + idx);
      AppendEntries(base, ChaptersEntries(chs, idx, first), ChapterEntries(idx + 1, chs[idx], first + idx));
      idx := idx + 1;
    }
    pageNum := first + idx;
  }

  /** `create_toc`: the entries written in order, with the page counter threaded through. */
  method CreateToc(doc: Container, d: ReportData)
    modifies doc
    ensures doc.blocks == old(doc.blocks) + EntryBlocks(TocEntries(d))
  {
    var pageNum := AddFrontEntries(doc, d);
    ghost var afterFront := doc.blocks;
    pageNum := AddChaptersEntries(doc, d.chapters, pageNum);
    ghost var afterChapters := doc.blocks;
    if d.includeAnnexes {
      CreateTocEntry(doc, "ANNEXES", 1, NatToString(pageNum));
    }
    ghost var front, body, annex := FrontEntries(d), ChaptersEntries(d.chapters, |d.chapters|, FirstChapterPage(d)), AnnexEntries(d);
    assert doc.blocks == afterChapters + EntryBlocks(annex);
    EntryBlocksAppend(front, body);
    EntryBlocksAppend(front + body, annex);
    AppendAssoc(old(doc.blocks), EntryBlocks(front), EntryBlocks(body));
    AppendAssoc(old(doc.blocks), EntryBlocks(front + body), EntryBlocks(annex));
  }

  lemma {:induction false} AppendAssoc<T>(a: seq<T>, b: seq<T>, c: seq<T>)
    ensures (a + b) + c == a + (b + c)
  {
  }

  lemma {:induction false} EntryBlocksCons(e: TocEntry, es: seq<TocEntry>)
    ensures EntryBlocks([e] + es) == [EntryBlock(e)] + EntryBlocks(es)
  {
    assert EntryBlocks([e] + es)[1..] == EntryBlocks(es);
  }

  lemma {:induction false} SubSubEntriesStep(i: nat, j: nat, gs: seq<ChapterItem>, n: nat, page: nat)
    requires n < |gs|
    ensures SubSubEntries(i, j, gs, n + 1, page)
      == SubSubEntries(i, j, gs, n, page) + [TocEntry(Label3(i, j, n + 1, gs[n].title), 3, page)]
  {
  }

  lemma {:induction false} SubEntriesStep(i: nat, subs: seq<ChapterItem>, n: nat, page: nat)
    requires n < |subs|
    ensures SubEntries(i, subs, n + 1, page) == SubEntries(i, subs, n, page) + SubChapterEntries(i, n + 1, subs[n], page)
  {
  }

  lemma {:induction false} ChaptersEntriesStep(chs: seq<ChapterItem>, n: nat, first: nat)
    requires n < |chs|
    ensures ChaptersEntries(chs, n + 1, first) == ChaptersEntries(chs, n, first) + ChapterEntries(n + 1, chs[n], first + n)
  {
  }

  /** Appending the blocks of `part` after those of `prev` is appending the blocks of `prev + part`. */
  lemma {:induction false} AppendEntries(base: seq<Block>, prev: seq<TocEntry>, part: seq<TocEntry>)
    ensures base + EntryBlocks(prev) + EntryBlocks(part) == base + EntryBlocks(prev + part)
  {
    EntryBlocksAppend(prev, part);
  }

  lemma {:induction false} EntryBlocksAppend(a: seq<TocEntry>, b: seq<TocEntry>)
    ensures EntryBlocks(a + b) == EntryBlocks(a) + EntryBlocks(b)
  {
    assert EntryBlocks(a + b)[..|a|] == EntryBlocks(a);
    assert EntryBlocks(a + b)[|a|..] == EntryBlocks(b);
  }

  // ---------------------------------------------------------------------
  // Page numbering
  // ---------------------------------------------------------------------

  /** Every entry is on page `p`. */
  predicate OnPage(es: seq<TocEntry>, p: nat)
  {
    forall k :: 0 <= k < |es| ==> es[k].page == p
  }

  /** Every entry is on a page in `lo..hi-1`. */
  predicate PagesWithin(es: seq<TocEntry>, lo: nat, hi: nat)
  {
    forall k :: 0 <= k < |es| ==> lo <= es[k].page < hi
  }

  /** Page numbers never decrease down the table. */
  predicate PagesSorted(es: seq<TocEntry>)
  {
    forall a, b :: 0 <= a <= b < |es| ==> es[a].page <= es[b].page
  }

  lemma {:induction false} OnPageAppend(a: seq<TocEntry>, b: seq<TocEntry>, p: nat)
    requires OnPage(a, p) && OnPage(b, p)
    ensures OnPage(a + b, p)
  {
    forall k | 0 <= k < |a + b| ensures (a + b)[k].page == p {
      if k >= |a| {
        assert (a + b)[k] == b[k - |a|];
      }
    }
  }

  lemma {:induction false} SubSubEntriesOnPage(i: nat, j: nat, gs: seq<ChapterItem>, n: nat, page: nat)
    requires n <= |gs|
    ensures OnPage(SubSubEntries(i, j, gs, n, page), page)
    ensures |SubSubEntries(i, j, gs, n, page)| == n
    decreases n
  {
    if n > 0 {
      SubSubEntriesOnPage(i, j, gs, n - 1, page);
      OnPageAppend(SubSubEntries(i, j, gs, n - 1, page), [TocEntry(Label3(i, j, n, gs[n - 1].title), 3, page)], page);
    }
  }

  lemma {:induction false} SubEntriesOnPage(i: nat, subs: seq<ChapterItem>, n: nat, page: nat)
    requires n <= |subs|
    ensures OnPage(SubEntries(i, subs, n, page), page)
    decreases n
  {
    if n > 0 {
      SubEntriesOnPage(i, subs, n - 1, page);
      var sub := subs[n - 1];
      SubSubEntriesOnPage(i, n, sub.children, |sub.children|, page);
      OnPageAppend([TocEntry(Label2(i, n, sub.title), 2, page)], SubSubEntries(i, n, sub.children, |sub.children|, page), page);
      OnPageAppend(SubEntries(i, subs, n - 1, page), SubChapterEntries(i, n, sub, page), page);
    }
  }

  /**
   * Sub-chapters do not advance the page counter: a chapter's entry and the
   * entries of all its sub-chapters carry the chapter's page.
   */
  lemma {:induction false} ChapterEntriesOnPage(i: nat, ch: ChapterItem, page: nat)
    ensures OnPage(ChapterEntries(i, ch, page), page)
    ensures ChapterEntries(i, ch, page)[0] == TocEntry(Label1(i, ch.title), 1, page)
  {
    SubEntriesOnPage(i, ch.children, |ch.children|, page);
    OnPageAppend([TocEntry(Label1(i, ch.title), 1, page)], SubEntries(i, ch.children, |ch.children|, page), page);
  }

  /** Two sorted runs of entries, the first ending no later than the second starts, concatenate sorted. */
  lemma {:induction false} PagesSortedAppend(a: seq<TocEntry>, b: seq<TocEntry>, lo: nat, mid: nat, hi: nat)
    requires lo <= mid < hi
    requires PagesSorted(a) && PagesSorted(b) && PagesWithin(a, lo, mid + 1) && PagesWithin(b, mid, hi)
    ensures PagesSorted(a + b) && PagesWithin(a + b, lo, hi)
  {
    var ab := a + b;
    forall k | 0 <= k < |ab| ensures ab[k] == if k < |a| then a[k] else b[k - |a|] {
    }
  }

  /**
   * Each chapter advances the counter by one: the entries of the first `n`
   * chapters lie on pages `first .. first + n - 1`, in non-decreasing order.
   */
  lemma {:induction false} ChaptersEntriesPages(chs: seq<ChapterItem>, n: nat, first: nat)
    requires n <= |chs|
    ensures PagesWithin(ChaptersEntries(chs, n, first), first, first + n)
    ensures PagesSorted(ChaptersEntries(chs, n, first))
    decreases n
  {
    if n > 0 {
      ChaptersEntriesPages(chs, n - 1, first);
      var p := first + n - 1;
      var part := ChapterEntries(n, chs[n - 1], p);
      ChapterEntriesOnPage(n, chs[n - 1], p);
      NextPageSorted(ChaptersEntries(chs, n - 1, first), part, first, p);
    }
  }

  lemma {:induction false} NextPageSorted(prev: seq<TocEntry>, part: seq<TocEntry>, first: nat, p: nat)
    requires first <= p && PagesSorted(prev) && PagesWithin(prev, first, p) && OnPage(part, p)
    ensures PagesSorted(prev + part) && PagesWithin(prev + part, first, p + 1)
  {
    assert PagesWithin(prev, first, p + 1);
    PagesSortedAppend(prev, part, first, p, p + 1);
  }

  /** Thanks on page 3, the abstract on the page just before the first chapter. */
  lemma {:induction false} FrontEntriesPages(d: ReportData)
    ensures PagesSorted(FrontEntries(d)) && PagesWithin(FrontEntries(d), 3, FirstChapterPage(d))
    ensures d.includeThanks ==> FrontEntries(d)[0] == TocEntry("REMERCIEMENTS", 1, 3)
    ensures d.includeAbstract ==>
      FrontEntries(d)[|FrontEntries(d)| - 1] == TocEntry("RÉSUMÉ", 1, FirstChapterPage(d) - 1)
  {
  }

  /**
   * The page numbers of the whole table never decrease: the front matter
   * comes before the first chapter's page, the chapters from there on, and
   * the annexes on the page after the last chapter.
   */
  lemma {:induction false} TocEntriesPages(d: ReportData)
    ensures PagesSorted(TocEntries(d))
  {
    var first := FirstChapterPage(d);
    ChaptersEntriesPages(d.chapters, |d.chapters|, first);
    FrontEntriesPages(d);
    ThreePartsSorted(FrontEntries(d), ChaptersEntries(d.chapters, |d.chapters|, first), AnnexEntries(d),
      first, first + |d.chapters|);
  }

  lemma {:induction false} ThreePartsSorted(front: seq<TocEntry>, body: seq<TocEntry>, annex: seq<TocEntry>, first: nat, last: nat)
    requires 1 <= first <= last
    requires PagesSorted(front) && PagesWithin(front, 0, first)
    requires PagesSorted(body) && PagesWithin(body, first, last)
    requires PagesSorted(annex) && PagesWithin(annex, last, last + 1)
    ensures PagesSorted(front + body + annex)
  {
    assert PagesWithin(body, first - 1, last + 1);
    PagesSortedAppend(front, body, 0, first - 1, last + 1);
    PagesSortedAppend(front + body, annex, 0, last, last + 1);
  }

  /** The table opens with the thanks entry and closes with the annexes entry when they are included. */
  lemma {:induction false} TocEntriesEnds(d: ReportData)
    ensures d.includeThanks ==> TocEntries(d)[0] == TocEntry("REMERCIEMENTS", 1, 3)
    ensures d.includeAnnexes ==>
      TocEntries(d)[|TocEntries(d)| - 1] == TocEntry("ANNEXES", 1, FirstChapterPage(d) + |d.chapters|)
  {
    FrontEntriesPages(d);
    var rest := ChaptersEntries(d.chapters, |d.chapters|, FirstChapterPage(d)) + AnnexEntries(d);
    assert TocEntries(d) == FrontEntries(d) + rest;
  }
}
