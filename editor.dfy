// The browser-side outline editor: the chapter tree the user edits (add a
// child to a node, delete a node, rename a node, move a chapter up or down),
// the numbered rows it renders with their buttons, the default outline, and
// the three list editors for the glossary, the figures and the Gantt tasks.
// The ids the editor takes from the clock are parameters here.
module Editor {
  import opened Text
  import opened Schemas
  import opened Toc
  import opened Sections

  // ---------------------------------------------------------------------
  // The outline in depth-first pre-order
  // ---------------------------------------------------------------------

  /** A node of the outline seen on its own: its id, title and level. */
  datatype Entry = Entry(id: int, title: string, level: int)

  function EntryOf(n: ChapterItem): Entry
  {
    Entry(n.id, n.title, n.level)
  }

  /** Every node of the outline, each one before its children. */
  function Flat(items: seq<ChapterItem>): seq<Entry>
    decreases items
  {
    if items == [] then [] else [EntryOf(items[0])] + Flat(items[0].children) + Flat(items[1..])
  }

  lemma {:induction false} FlatAppend(a: seq<ChapterItem>, b: seq<ChapterItem>)
    ensures Flat(a + b) == Flat(a) + Flat(b)
    decreases |a|
  {
    if a == [] {
      assert a + b == b;
    } else {
      assert (a + b)[0] == a[0];
      assert (a + b)[1..] == a[1..] + b;
      FlatAppend(a[1..], b);
    }
  }

  /** The pre-order position of the first node with the id, or the length when no node has it. */
  function FirstWithId(es: seq<Entry>, id: int): (k: nat)
    ensures k <= |es|
  {
    if es == [] then 0 else if es[0].id == id then 0 else 1 + FirstWithId(es[1..], id)
  }

  /** The position found holds the id, and no earlier one does. */
  lemma {:induction false} FirstWithIdMeaning(es: seq<Entry>, id: int)
    ensures FirstWithId(es, id) < |es| ==> es[FirstWithId(es, id)].id == id
    ensures forall j :: 0 <= j < FirstWithId(es, id) ==> es[j].id != id
    decreases |es|
  {
    if es != [] && es[0].id != id {
      FirstWithIdMeaning(es[1..], id);
      assert forall j :: 1 <= j < FirstWithId(es, id) ==> es[j] == es[1..][j - 1];
    }
  }

  lemma {:induction false} FirstWithIdAppend(a: seq<Entry>, b: seq<Entry>, id: int)
    ensures FirstWithId(a + b, id) == if FirstWithId(a, id) < |a| then FirstWithId(a, id) else |a| + FirstWithId(b, id)
    decreases |a|
  {
    if a == [] {
      assert a + b == b;
    } else {
      assert (a + b)[0] == a[0];
      assert (a + b)[1..] == a[1..] + b;
      FirstWithIdAppend(a[1..], b, id);
    }
  }

  /** The node at pre-order position `k`, with its subtree. */
  function NodeAt(items: seq<ChapterItem>, k: nat): ChapterItem
    requires k < |Flat(items)|
    decreases items
  {
    if k == 0 then items[0]
    else if k - 1 < |Flat(items[0].children)| then NodeAt(items[0].children, k - 1)
    else NodeAt(items[1..], k - 1 - |Flat(items[0].children)|)
  }

  /** The number of pre-order entries of a node and its descendants. */
  function SubtreeSize(n: ChapterItem): nat
  {
    1 + |Flat(n.children)|
  }

  /** A node's subtree occupies the pre-order positions from its own onwards. */
  lemma {:induction false} NodeAtSubtree(items: seq<ChapterItem>, k: nat)
    requires k < |Flat(items)|
    ensures k + SubtreeSize(NodeAt(items, k)) <= |Flat(items)|
    ensures Flat(items)[k..k + SubtreeSize(NodeAt(items, k))] == Flat([NodeAt(items, k)])
    decreases items, 2
  {
    if k == 0 {
      SubtreeAtHead(items);
    } else if k - 1 < |Flat(items[0].children)| {
      SubtreeInChildren(items, k);
    } else {
      SubtreeInSiblings(items, k);
    }
  }

  lemma {:induction false} SubtreeAtHead(items: seq<ChapterItem>)
    requires 0 < |Flat(items)|
    ensures SubtreeSize(NodeAt(items, 0)) <= |Flat(items)|
    ensures Flat(items)[..SubtreeSize(NodeAt(items, 0))] == Flat([NodeAt(items, 0)])
  {
    var x := items[0];
    assert Flat(items) == ([EntryOf(x)] + Flat(x.children)) + Flat(items[1..]);
    assert Flat([x]) == [EntryOf(x)] + Flat(x.children) by {
      assert [x][1..] == [];
    }
  }

  lemma {:induction false} SubtreeInChildren(items: seq<ChapterItem>, k: nat)
    requires 0 < k < |Flat(items)| && k - 1 < |Flat(items[0].children)|
    ensures k + SubtreeSize(NodeAt(items, k)) <= |Flat(items)|
    ensures Flat(items)[k..k + SubtreeSize(NodeAt(items, k))] == Flat([NodeAt(items, k)])
    decreases items, 1
  {
    var x := items[0];
    var n := NodeAt(x.children, k - 1);
    assert NodeAt(items, k) == n;
    assert Flat(items) == [EntryOf(x)] + Flat(x.children) + Flat(items[1..]);
    NodeAtSubtree(x.children, k - 1);
    SliceOfMiddle([EntryOf(x)], Flat(x.children), Flat(items[1..]), k, k + SubtreeSize(n));
  }

  lemma {:induction false} SubtreeInSiblings(items: seq<ChapterItem>, k: nat)
    requires 0 < k < |Flat(items)| && k - 1 >= |Flat(items[0].children)|
    ensures k + SubtreeSize(NodeAt(items, k)) <= |Flat(items)|
    ensures Flat(items)[k..k + SubtreeSize(NodeAt(items, k))] == Flat([NodeAt(items, k)])
    decreases items, 1
  {
    var x := items[0];
    var front := [EntryOf(x)] + Flat(x.children);
    var n := NodeAt(items[1..], k - |front|);
    assert NodeAt(items, k) == n;
    assert Flat(items) == front + Flat(items[1..]);
    NodeAtSubtree(items[1..], k - |front|);
    SliceOfEnd(front, Flat(items[1..]), k, k + SubtreeSize(n));
  }

  /** A slice that lies within the middle part of a concatenation is a slice of that part. */
  lemma {:induction false} SliceOfMiddle<T>(a: seq<T>, b: seq<T>, c: seq<T>, i: nat, j: nat)
    requires |a| <= i <= j <= |a| + |b|
    ensures (a + b + c)[i..j] == b[i - |a|..j - |a|]
  {
    assert forall m :: i <= m < j ==> (a + b + c)[m] == b[m - |a|];
  }

  /** A slice that lies within the last part of a concatenation is a slice of that part. */
  lemma {:induction false} SliceOfEnd<T>(a: seq<T>, b: seq<T>, i: nat, j: nat)
    requires |a| <= i <= j <= |a| + |b|
    ensures (a + b)[i..j] == b[i - |a|..j - |a|]
  {
    assert forall m :: i <= m < j ==> (a + b)[m] == b[m - |a|];
  }

  /** The node found at a position is the one whose entry sits there. */
  lemma {:induction false} NodeAtEntry(items: seq<ChapterItem>, k: nat)
    requires k < |Flat(items)|
    ensures Flat(items)[k] == EntryOf(NodeAt(items, k))
  {
    NodeAtSubtree(items, k);
    var n := NodeAt(items, k);
    assert Flat([n])[0] == EntryOf(n);
    assert Flat(items)[k] == Flat(items)[k..k + SubtreeSize(n)][0];
  }

  /** The result of a search that may change a list: the new list, and whether it found its node. */
  function Prepend(p: seq<ChapterItem>, res: (seq<ChapterItem>, bool)): (seq<ChapterItem>, bool)
  {
    (p + res.0, res.1)
  }

  lemma {:induction false} PrependPrepend(p: seq<ChapterItem>, q: seq<ChapterItem>, res: (seq<ChapterItem>, bool))
    ensures Prepend(p, Prepend(q, res)) == Prepend(p + q, res)
  {
    assert p + (q + res.0) == (p + q) + res.0;
  }
  /** The first `i` entries of a concatenation that reach into its middle part. */
  lemma {:induction false} PrefixIntoMiddle<T>(a: seq<T>, b: seq<T>, c: seq<T>, i: nat)
    requires i <= |b|
    ensures (a + b + c)[..|a| + i] == a + b[..i]
  {
    assert forall m :: 0 <= m < |a| + i ==> (a + b + c)[m] == (a + b[..i])[m];
  }

  /** The entries of a concatenation from a position inside its middle part. */
  lemma {:induction false} SuffixFromMiddle<T>(a: seq<T>, b: seq<T>, c: seq<T>, i: nat)
    requires i <= |b|
    ensures (a + b + c)[|a| + i..] == b[i..] + c
  {
    assert forall m :: |a| + i <= m < |a + b + c| ==> (a + b + c)[m] == (b[i..] + c)[m - |a| - i];
  }

  // ---------------------------------------------------------------------
  // deleteChapter: the first node with the id, with its subtree
  // ---------------------------------------------------------------------

  /**
   * `del`: in each list, a node with the id is spliced out and the search
   * stops; otherwise the node's children are searched before its next
   * sibling, and the search stops as soon as they report a deletion.
   */
  function Delete(items: seq<ChapterItem>, id: int): (seq<ChapterItem>, bool)
    decreases items
  {
    if items == [] then (items, false)
    else if items[0].id == id then (items[1..], true)
    else
      var inner := Delete(items[0].children, id);
      if inner.1 then ([items[0].(children := inner.0)] + items[1..], true)
      else Prepend([items[0]], Delete(items[1..], id))
  }

  /** `del(items)` as the source runs it: a `for` loop over the list, recursing into children. */
  method FindAndDelete(items: seq<ChapterItem>, id: int) returns (r: seq<ChapterItem>, found: bool)
    ensures (r, found) == Delete(items, id)
    decreases items
  {
    var i := 0;
    assert items[..0] + Delete(items[0..], id).0 == Delete(items, id).0 by {
      assert items[0..] == items;
    }
    while i < |items|
      invariant 0 <= i <= |items|
      invariant Delete(items, id) == Prepend(items[..i], Delete(items[i..], id))
    {
      var tail := items[i..];
      assert tail[0] == items[i] && tail[1..] == items[i + 1..];
      if items[i].id == id {
        assert Delete(tail, id) == (items[i + 1..], true);
        r, found := items[..i] + items[i + 1..], true;
        assert (r, found) == Prepend(items[..i], Delete(tail, id));
        return;
      }
      var kids, f := FindAndDelete(items[i].children, id);
      if f {
        assert Delete(tail, id) == ([items[i].(children := kids)] + items[i + 1..], true);
        r, found := items[i := items[i].(children := kids)], true;
        assert r == items[..i] + ([items[i].(children := kids)] + items[i + 1..]);
        assert (r, found) == Prepend(items[..i], Delete(tail, id));
        return;
      }
      assert Delete(tail, id) == Prepend([items[i]], Delete(items[i + 1..], id));
      PrependPrepend(items[..i], [items[i]], Delete(items[i + 1..], id));
      assert items[..i] + [items[i]] == items[..i + 1];
      i := i + 1;
    }
    assert items[i..] == [];
    assert items[..i] == items;
    r, found := items, false;
    assert items + [] == items;
  }

  /** Deletion finds a node exactly when some node has the id; without one nothing changes. */
  lemma {:induction false} DeleteFindsAnyMatch(items: seq<ChapterItem>, id: int)
    ensures Delete(items, id).1 <==> FirstWithId(Flat(items), id) < |Flat(items)|
    ensures !Delete(items, id).1 ==> Delete(items, id).0 == items
    decreases items
  {
    if items != [] {
      var x, rest := items[0], items[1..];
      var ex, fx, fr := EntryOf(x), Flat(x.children), Flat(rest);
      assert Flat(items) == [ex] + fx + fr;
      FirstWithIdAppend([ex] + fx, fr, id);
      FirstWithIdAppend([ex], fx, id);
      assert FirstWithId([ex], id) == if x.id == id then 0 else 1 by {
        assert [ex][1..] == [];
      }
      if x.id != id {
        DeleteFindsAnyMatch(x.children, id);
        if !Delete(x.children, id).1 {
          DeleteFindsAnyMatch(rest, id);
          assert [x] + rest == items;
        }
      }
    }
  }

  /**
   * When a node has the id, deletion removes the first one in pre-order
   * together with its whole subtree: every other node stays, in the same
   * order.
   */
  lemma {:induction false} DeleteRemovesFirstMatch(items: seq<ChapterItem>, id: int)
    requires FirstWithId(Flat(items), id) < |Flat(items)|
    ensures var k := FirstWithId(Flat(items), id);
      var n := SubtreeSize(NodeAt(items, k));
      k + n <= |Flat(items)| && Flat(Delete(items, id).0) == Flat(items)[..k] + Flat(items)[k + n..]
    decreases items, 2
  {
    if items[0].id == id {
      DeleteHeadCase(items, id);
    } else if FirstWithId(Flat(items[0].children), id) < |Flat(items[0].children)| {
      DeleteChildrenCase(items, id);
    } else {
      DeleteSiblingsCase(items, id);
    }
  }

  lemma {:induction false} DeleteHeadCase(items: seq<ChapterItem>, id: int)
    requires items != [] && items[0].id == id
    ensures var k := FirstWithId(Flat(items), id);
      var n := SubtreeSize(NodeAt(items, k));
      k + n <= |Flat(items)| && Flat(Delete(items, id).0) == Flat(items)[..k] + Flat(items)[k + n..]
  {
    var x, rest := items[0], items[1..];
    var fx, fr := Flat(x.children), Flat(rest);
    FirstWithIdSplit(items, id);
    assert Flat(items) == [EntryOf(x)] + fx + fr;
    assert Flat(items)[1 + |fx|..] == fr;
  }

  lemma {:induction false} DeleteChildrenCase(items: seq<ChapterItem>, id: int)
    requires items != [] && items[0].id != id
    requires FirstWithId(Flat(items[0].children), id) < |Flat(items[0].children)|
    requires FirstWithId(Flat(items), id) < |Flat(items)|
    ensures var k := FirstWithId(Flat(items), id);
      var n := SubtreeSize(NodeAt(items, k));
      k + n <= |Flat(items)| && Flat(Delete(items, id).0) == Flat(items)[..k] + Flat(items)[k + n..]
    decreases items, 1
  {
    var k' := FirstWithId(Flat(items[0].children), id);
    MatchInChildren(items, id, k');
    DeleteFindsAnyMatch(items[0].children, id);
    DeleteInChildren(items, id, k', SubtreeSize(NodeAt(items[0].children, k')));
  }

  lemma {:induction false} DeleteSiblingsCase(items: seq<ChapterItem>, id: int)
    requires items != [] && items[0].id != id
    requires FirstWithId(Flat(items[0].children), id) == |Flat(items[0].children)|
    requires FirstWithId(Flat(items), id) < |Flat(items)|
    ensures var k := FirstWithId(Flat(items), id);
      var n := SubtreeSize(NodeAt(items, k));
      k + n <= |Flat(items)| && Flat(Delete(items, id).0) == Flat(items)[..k] + Flat(items)[k + n..]
    decreases items, 1
  {
    var k'' := FirstWithId(Flat(items[1..]), id);
    MatchInSiblings(items, id, k'');
    DeleteFindsAnyMatch(items[0].children, id);
    var n := SubtreeSize(NodeAt(items[1..], k''));
    assert FirstWithId(Flat(items), id) + SubtreeSize(NodeAt(items, FirstWithId(Flat(items), id))) == 1 + |Flat(items[0].children)| + k'' + n;
    DeleteInSiblings(items, id, k'', n);
  }

  /** Where the first match of a list lies: the head, inside the head's subtree, or among the siblings. */
  lemma {:induction false} FirstWithIdSplit(items: seq<ChapterItem>, id: int)
    requires items != []
    ensures var fx, fr := Flat(items[0].children), Flat(items[1..]);
      FirstWithId(Flat(items), id) ==
        if items[0].id == id then 0
        else if FirstWithId(fx, id) < |fx| then 1 + FirstWithId(fx, id)
        else 1 + |fx| + FirstWithId(fr, id)
  {
    var ex, fx, fr := EntryOf(items[0]), Flat(items[0].children), Flat(items[1..]);
    assert Flat(items) == [ex] + fx + fr;
    FirstWithIdAppend([ex] + fx, fr, id);
    FirstWithIdAppend([ex], fx, id);
    assert FirstWithId([ex], id) == if items[0].id == id then 0 else 1 by {
      assert [ex][1..] == [];
    }
  }

  lemma {:induction false} DeleteInChildren(items: seq<ChapterItem>, id: int, k: nat, n: nat)
    requires items != [] && items[0].id != id && Delete(items[0].children, id).1
    requires k == FirstWithId(Flat(items[0].children), id) < |Flat(items[0].children)|
    requires n == SubtreeSize(NodeAt(items[0].children, k))
    ensures 1 + k + n <= |Flat(items)|
    ensures Flat(Delete(items, id).0) == Flat(items)[..1 + k] + Flat(items)[1 + k + n..]
    decreases items, 0
  {
    DeletedInChildren(items, id);
    DeleteRemovesFirstMatch(items[0].children, id);
    CutInHeadChildren(items, Flat(Delete(items, id).0), Flat(Delete(items[0].children, id).0), k, n);
  }

  /** Entries cut out of the head's descendants are cut out of the whole pre-order, one place further on. */
  lemma {:induction false} CutInHeadChildren(items: seq<ChapterItem>, cut: seq<Entry>, kids': seq<Entry>, i: nat, n: nat)
    requires items != [] && i + n <= |Flat(items[0].children)|
    requires kids' == Flat(items[0].children)[..i] + Flat(items[0].children)[i + n..]
    requires cut == [EntryOf(items[0])] + kids' + Flat(items[1..])
    ensures 1 + i + n <= |Flat(items)|
    ensures cut == Flat(items)[..1 + i] + Flat(items)[1 + i + n..]
  {
    assert Flat(items) == [EntryOf(items[0])] + Flat(items[0].children) + Flat(items[1..]);
    CutInMiddle(Flat(items), [EntryOf(items[0])], Flat(items[0].children), Flat(items[1..]), cut, kids', i, n);
  }

  lemma {:induction false} DeletedInChildren(items: seq<ChapterItem>, id: int)
    requires items != [] && items[0].id != id && Delete(items[0].children, id).1
    ensures Flat(Delete(items, id).0) == [EntryOf(items[0])] + Flat(Delete(items[0].children, id).0) + Flat(items[1..])
  {
    var x, rest := items[0], items[1..];
    var kids := Delete(x.children, id).0;
    assert Delete(items, id).0 == [x.(children := kids)] + rest;
    assert ([x.(children := kids)] + rest)[1..] == rest;
  }

  /** The first match inside the head's children is the first match of the list, one place further on. */
  lemma {:induction false} MatchInChildren(items: seq<ChapterItem>, id: int, k': nat)
    requires items != [] && items[0].id != id
    requires k' == FirstWithId(Flat(items[0].children), id) < |Flat(items[0].children)|
    ensures FirstWithId(Flat(items), id) == 1 + k' < |Flat(items)|
    ensures SubtreeSize(NodeAt(items, 1 + k')) == SubtreeSize(NodeAt(items[0].children, k'))
  {
    FirstWithIdSplit(items, id);
    NodeAtInChildren(items, k');
  }

  /** With no match in the head's subtree, the first match of the list is that of the siblings, shifted past the subtree. */
  lemma {:induction false} MatchInSiblings(items: seq<ChapterItem>, id: int, k'': nat)
    requires items != [] && items[0].id != id
    requires FirstWithId(Flat(items[0].children), id) == |Flat(items[0].children)|
    requires FirstWithId(Flat(items), id) < |Flat(items)|
    requires k'' == FirstWithId(Flat(items[1..]), id)
    ensures k'' < |Flat(items[1..])|
    ensures FirstWithId(Flat(items), id) == 1 + |Flat(items[0].children)| + k''
    ensures SubtreeSize(NodeAt(items, 1 + |Flat(items[0].children)| + k'')) == SubtreeSize(NodeAt(items[1..], k''))
  {
    FirstWithIdSplit(items, id);
    assert Flat(items) == [EntryOf(items[0])] + Flat(items[0].children) + Flat(items[1..]);
    NodeAtInSiblings(items, k'');
  }

  lemma {:induction false} NodeAtInChildren(items: seq<ChapterItem>, k: nat)
    requires items != [] && k < |Flat(items[0].children)|
    ensures 1 + k < |Flat(items)| && NodeAt(items, 1 + k) == NodeAt(items[0].children, k)
  {
  }

  lemma {:induction false} NodeAtInSiblings(items: seq<ChapterItem>, k: nat)
    requires items != [] && k < |Flat(items[1..])|
    ensures 1 + |Flat(items[0].children)| + k < |Flat(items)|
    ensures NodeAt(items, 1 + |Flat(items[0].children)| + k) == NodeAt(items[1..], k)
  {
  }

  lemma {:induction false} DeletedInSiblings(items: seq<ChapterItem>, id: int)
    requires items != [] && items[0].id != id && !Delete(items[0].children, id).1
    ensures Flat(Delete(items, id).0) == ([EntryOf(items[0])] + Flat(items[0].children)) + Flat(Delete(items[1..], id).0)
  {
    var x, rest' := items[0], Delete(items[1..], id).0;
    assert Delete(items, id).0 == [x] + rest';
    assert ([x] + rest')[1..] == rest';
  }

  lemma {:induction false} DeleteInSiblings(items: seq<ChapterItem>, id: int, k: nat, n: nat)
    requires items != [] && items[0].id != id && !Delete(items[0].children, id).1
    requires k == FirstWithId(Flat(items[1..]), id) < |Flat(items[1..])|
    requires n == SubtreeSize(NodeAt(items[1..], k))
    ensures 1 + |Flat(items[0].children)| + k + n <= |Flat(items)|
    ensures Flat(Delete(items, id).0) ==
      Flat(items)[..1 + |Flat(items[0].children)| + k] + Flat(items)[1 + |Flat(items[0].children)| + k + n..]
    decreases items, 0
  {
    DeletedInSiblings(items, id);
    DeleteRemovesFirstMatch(items[1..], id);
    CutAfterHead(items, Flat(Delete(items, id).0), Flat(Delete(items[1..], id).0), k, n);
  }

  /** Entries cut out of the siblings' pre-order are cut out of the whole, past the head's subtree. */
  lemma {:induction false} CutAfterHead(items: seq<ChapterItem>, cut: seq<Entry>, rest': seq<Entry>, i: nat, n: nat)
    requires items != [] && i + n <= |Flat(items[1..])|
    requires rest' == Flat(items[1..])[..i] + Flat(items[1..])[i + n..]
    requires cut == ([EntryOf(items[0])] + Flat(items[0].children)) + rest'
    ensures 1 + |Flat(items[0].children)| + i + n <= |Flat(items)|
    ensures cut == Flat(items)[..1 + |Flat(items[0].children)| + i] + Flat(items)[1 + |Flat(items[0].children)| + i + n..]
  {
    var front := [EntryOf(items[0])] + Flat(items[0].children);
    assert Flat(items) == front + Flat(items[1..]);
    CutInEnd(Flat(items), front, Flat(items[1..]), cut, rest', i, n);
  }

  /** Cutting a slice out of the last part of a concatenation cuts it out of the whole. */
  lemma {:induction false} CutInEnd<T>(whole: seq<T>, a: seq<T>, b: seq<T>, cut: seq<T>, b': seq<T>, i: nat, n: nat)
    requires whole == a + b && i + n <= |b|
    requires b' == b[..i] + b[i + n..] && cut == a + b'
    ensures |a| + i + n <= |whole| && cut == whole[..|a| + i] + whole[|a| + i + n..]
  {
    assert whole[..|a| + i] == a + b[..i];
    assert whole[|a| + i + n..] == b[i + n..];
  }

  /** Cutting a slice out of the middle part of a concatenation cuts it out of the whole. */
  lemma {:induction false} CutInMiddle<T>(whole: seq<T>, a: seq<T>, b: seq<T>, c: seq<T>, cut: seq<T>, b': seq<T>, i: nat, n: nat)
    requires whole == a + b + c && i + n <= |b|
    requires b' == b[..i] + b[i + n..] && cut == a + b' + c
    ensures |a| + i + n <= |whole| && cut == whole[..|a| + i] + whole[|a| + i + n..]
  {
    PrefixIntoMiddle(a, b, c, i);
    SuffixFromMiddle(a, b, c, i + n);
  }
  // ---------------------------------------------------------------------
  // addSubChapter: one new child for the first node with the id
  // ---------------------------------------------------------------------

  /**
   * `findAndAdd`: in each list, a node with the id gets the child as its
   * last child and the search stops; otherwise the node's children are
   * searched before its next sibling.
   */
  function AddChild(items: seq<ChapterItem>, parentId: int, child: ChapterItem): (seq<ChapterItem>, bool)
    decreases items
  {
    if items == [] then (items, false)
    else if items[0].id == parentId then ([items[0].(children := items[0].children + [child])] + items[1..], true)
    else
      var inner := AddChild(items[0].children, parentId, child);
      if inner.1 then ([items[0].(children := inner.0)] + items[1..], true)
      else Prepend([items[0]], AddChild(items[1..], parentId, child))
  }

  /** `findAndAdd(items)` as the source runs it: a `for` loop over the list, recursing into children. */
  method FindAndAdd(items: seq<ChapterItem>, parentId: int, child: ChapterItem) returns (r: seq<ChapterItem>, found: bool)
    ensures (r, found) == AddChild(items, parentId, child)
    decreases items
  {
    var i := 0;
    assert items[..0] + AddChild(items[0..], parentId, child).0 == AddChild(items, parentId, child).0 by {
      assert items[0..] == items;
    }
    while i < |items|
      invariant 0 <= i <= |items|
      invariant AddChild(items, parentId, child) == Prepend(items[..i], AddChild(items[i..], parentId, child))
    {
      AddChildStep(items, i, parentId, child);
      if items[i].id == parentId {
        var x := items[i].(children := items[i].children + [child]);
        r, found := items[i := x], true;
        UpdateAsSplice(items, i, x);
        return;
      }
      var kids, f := FindAndAdd(items[i].children, parentId, child);
      if f {
        var x := items[i].(children := kids);
        r, found := items[i := x], true;
        UpdateAsSplice(items, i, x);
        return;
      }
      PrependPrepend(items[..i], [items[i]], AddChild(items[i + 1..], parentId, child));
      assert items[..i] + [items[i]] == items[..i + 1];
      i := i + 1;
    }
    assert items[i..] == [];
    assert items[..i] == items;
    r, found := items, false;
    assert items + [] == items;
  }

  /** One step of the search at position `i`: what `findAndAdd` does with the rest of the list from there. */
  lemma {:induction false} AddChildStep(items: seq<ChapterItem>, i: nat, parentId: int, child: ChapterItem)
    requires i < |items|
    ensures items[i].id == parentId ==>
      AddChild(items[i..], parentId, child) == ([items[i].(children := items[i].children + [child])] + items[i + 1..], true)
    ensures items[i].id != parentId && AddChild(items[i].children, parentId, child).1 ==>
      AddChild(items[i..], parentId, child) == ([items[i].(children := AddChild(items[i].children, parentId, child).0)] + items[i + 1..], true)
    ensures items[i].id != parentId && !AddChild(items[i].children, parentId, child).1 ==>
      AddChild(items[i..], parentId, child) == Prepend([items[i]], AddChild(items[i + 1..], parentId, child))
  {
    assert items[i..][0] == items[i] && items[i..][1..] == items[i + 1..];
  }

  /** Replacing the element at `i` is splicing the new one in between the two sides. */
  lemma {:induction false} UpdateAsSplice<T>(s: seq<T>, i: nat, x: T)
    requires i < |s|
    ensures s[i := x] == s[..i] + ([x] + s[i + 1..])
  {
  }

  /** The search finds a parent exactly when some node has the id; without one nothing changes. */
  lemma {:induction false} AddChildFindsAnyMatch(items: seq<ChapterItem>, parentId: int, child: ChapterItem)
    ensures AddChild(items, parentId, child).1 <==> FirstWithId(Flat(items), parentId) < |Flat(items)|
    ensures !AddChild(items, parentId, child).1 ==> AddChild(items, parentId, child).0 == items
    decreases items
  {
    if items != [] {
      FirstWithIdSplit(items, parentId);
      if items[0].id != parentId {
        AddChildFindsAnyMatch(items[0].children, parentId, child);
        if !AddChild(items[0].children, parentId, child).1 {
          AddChildFindsAnyMatch(items[1..], parentId, child);
          assert [items[0]] + items[1..] == items;
        }
      }
    }
  }

  /**
   * When a node has the id, the new child's subtree enters the pre-order
   * right after the whole subtree of the first such node, that is, as its
   * last child; every other node stays, in the same order.
   */
  lemma {:induction false} AddChildAfterFirstMatch(items: seq<ChapterItem>, parentId: int, child: ChapterItem)
    requires FirstWithId(Flat(items), parentId) < |Flat(items)|
    ensures var j := FirstWithId(Flat(items), parentId) + SubtreeSize(NodeAt(items, FirstWithId(Flat(items), parentId)));
      j <= |Flat(items)| && Flat(AddChild(items, parentId, child).0) == Flat(items)[..j] + Flat([child]) + Flat(items)[j..]
    decreases items, 2
  {
    if items[0].id == parentId {
      AddHeadCase(items, parentId, child);
    } else if FirstWithId(Flat(items[0].children), parentId) < |Flat(items[0].children)| {
      AddChildrenCase(items, parentId, child);
    } else {
      AddSiblingsCase(items, parentId, child);
    }
  }

  lemma {:induction false} AddHeadCase(items: seq<ChapterItem>, parentId: int, child: ChapterItem)
    requires items != [] && items[0].id == parentId
    ensures var j := FirstWithId(Flat(items), parentId) + SubtreeSize(NodeAt(items, FirstWithId(Flat(items), parentId)));
      j <= |Flat(items)| && Flat(AddChild(items, parentId, child).0) == Flat(items)[..j] + Flat([child]) + Flat(items)[j..]
  {
    var front := [EntryOf(items[0])] + Flat(items[0].children);
    FirstWithIdSplit(items, parentId);
    assert Flat(items) == front + Flat(items[1..]);
    AddedAtHead(items, parentId, child);
    InsertBetween(Flat(items), front, Flat(items[1..]), Flat([child]), Flat(AddChild(items, parentId, child).0));
  }

  lemma {:induction false} AddedAtHead(items: seq<ChapterItem>, parentId: int, child: ChapterItem)
    requires items != [] && items[0].id == parentId
    ensures Flat(AddChild(items, parentId, child).0) ==
      ([EntryOf(items[0])] + Flat(items[0].children)) + Flat([child]) + Flat(items[1..])
  {
    var x, rest := items[0], items[1..];
    var x' := x.(children := x.children + [child]);
    assert AddChild(items, parentId, child).0 == [x'] + rest;
    assert ([x'] + rest)[1..] == rest;
    FlatAppend(x.children, [child]);
  }

  lemma {:induction false} AddChildrenCase(items: seq<ChapterItem>, parentId: int, child: ChapterItem)
    requires items != [] && items[0].id != parentId
    requires FirstWithId(Flat(items[0].children), parentId) < |Flat(items[0].children)|
    requires FirstWithId(Flat(items), parentId) < |Flat(items)|
    ensures var j := FirstWithId(Flat(items), parentId) + SubtreeSize(NodeAt(items, FirstWithId(Flat(items), parentId)));
      j <= |Flat(items)| && Flat(AddChild(items, parentId, child).0) == Flat(items)[..j] + Flat([child]) + Flat(items)[j..]
    decreases items, 1
  {
    var k' := FirstWithId(Flat(items[0].children), parentId);
    MatchInChildren(items, parentId, k');
    AddChildFindsAnyMatch(items[0].children, parentId, child);
    AddInChildren(items, parentId, child, k' + SubtreeSize(NodeAt(items[0].children, k')));
  }

  lemma {:induction false} AddInChildren(items: seq<ChapterItem>, parentId: int, child: ChapterItem, j: nat)
    requires items != [] && items[0].id != parentId && AddChild(items[0].children, parentId, child).1
    requires FirstWithId(Flat(items[0].children), parentId) < |Flat(items[0].children)|
    requires j == FirstWithId(Flat(items[0].children), parentId)
      + SubtreeSize(NodeAt(items[0].children, FirstWithId(Flat(items[0].children), parentId)))
    ensures 1 + j <= |Flat(items)|
    ensures Flat(AddChild(items, parentId, child).0) == Flat(items)[..1 + j] + Flat([child]) + Flat(items)[1 + j..]
    decreases items, 0
  {
    AddedInChildren(items, parentId, child);
    AddChildAfterFirstMatch(items[0].children, parentId, child);
    InsertInHeadChildren(items, Flat([child]), Flat(AddChild(items[0].children, parentId, child).0), Flat(AddChild(items, parentId, child).0), j);
  }

  /** Entries inserted among the head's descendants are inserted into the whole pre-order, one place further on. */
  lemma {:induction false} InsertInHeadChildren(items: seq<ChapterItem>, m: seq<Entry>, kids': seq<Entry>, grown: seq<Entry>, i: nat)
    requires items != [] && i <= |Flat(items[0].children)|
    requires kids' == Flat(items[0].children)[..i] + m + Flat(items[0].children)[i..]
    requires grown == [EntryOf(items[0])] + kids' + Flat(items[1..])
    ensures 1 + i <= |Flat(items)|
    ensures grown == Flat(items)[..1 + i] + m + Flat(items)[1 + i..]
  {
    assert Flat(items) == [EntryOf(items[0])] + Flat(items[0].children) + Flat(items[1..]);
    InsertInMiddle(Flat(items), [EntryOf(items[0])], Flat(items[0].children), Flat(items[1..]), m, kids', grown, i);
  }

  lemma {:induction false} AddedInChildren(items: seq<ChapterItem>, parentId: int, child: ChapterItem)
    requires items != [] && items[0].id != parentId && AddChild(items[0].children, parentId, child).1
    ensures Flat(AddChild(items, parentId, child).0) ==
      [EntryOf(items[0])] + Flat(AddChild(items[0].children, parentId, child).0) + Flat(items[1..])
  {
    var x, rest := items[0], items[1..];
    var kids := AddChild(x.children, parentId, child).0;
    assert AddChild(items, parentId, child).0 == [x.(children := kids)] + rest;
    assert ([x.(children := kids)] + rest)[1..] == rest;
  }

  lemma {:induction false} AddSiblingsCase(items: seq<ChapterItem>, parentId: int, child: ChapterItem)
    requires items != [] && items[0].id != parentId
    requires FirstWithId(Flat(items[0].children), parentId) == |Flat(items[0].children)|
    requires FirstWithId(Flat(items), parentId) < |Flat(items)|
    ensures var j := FirstWithId(Flat(items), parentId) + SubtreeSize(NodeAt(items, FirstWithId(Flat(items), parentId)));
      j <= |Flat(items)| && Flat(AddChild(items, parentId, child).0) == Flat(items)[..j] + Flat([child]) + Flat(items)[j..]
    decreases items, 1
  {
    var k'' := FirstWithId(Flat(items[1..]), parentId);
    MatchInSiblings(items, parentId, k'');
    AddChildFindsAnyMatch(items[0].children, parentId, child);
    var n := SubtreeSize(NodeAt(items[1..], k''));
    var j := 1 + |Flat(items[0].children)| + k'' + n;
    assert FirstWithId(Flat(items), parentId) + SubtreeSize(NodeAt(items, FirstWithId(Flat(items), parentId))) == j;
    AddInSiblings(items, parentId, child, k'', n);
  }

  lemma {:induction false} AddInSiblings(items: seq<ChapterItem>, parentId: int, child: ChapterItem, k: nat, n: nat)
    requires items != [] && items[0].id != parentId && !AddChild(items[0].children, parentId, child).1
    requires k == FirstWithId(Flat(items[1..]), parentId) < |Flat(items[1..])|
    requires n == SubtreeSize(NodeAt(items[1..], k))
    ensures 1 + |Flat(items[0].children)| + k + n <= |Flat(items)|
    ensures Flat(AddChild(items, parentId, child).0) ==
      Flat(items)[..1 + |Flat(items[0].children)| + k + n] + Flat([child]) + Flat(items)[1 + |Flat(items[0].children)| + k + n..]
    decreases items, 0
  {
    AddedInSiblings(items, parentId, child);
    AddChildAfterFirstMatch(items[1..], parentId, child);
    InsertAfterHead(items, Flat([child]), Flat(AddChild(items[1..], parentId, child).0), Flat(AddChild(items, parentId, child).0), k, n);
  }

  /** Entries inserted into the siblings' pre-order are inserted into the whole, past the head's subtree. */
  lemma {:induction false} InsertAfterHead(items: seq<ChapterItem>, m: seq<Entry>, rest': seq<Entry>, grown: seq<Entry>, k: nat, n: nat)
    requires items != [] && k + n <= |Flat(items[1..])|
    requires rest' == Flat(items[1..])[..k + n] + m + Flat(items[1..])[k + n..]
    requires grown == ([EntryOf(items[0])] + Flat(items[0].children)) + rest'
    ensures 1 + |Flat(items[0].children)| + k + n <= |Flat(items)|
    ensures grown == Flat(items)[..1 + |Flat(items[0].children)| + k + n] + m + Flat(items)[1 + |Flat(items[0].children)| + k + n..]
  {
    var front := [EntryOf(items[0])] + Flat(items[0].children);
    assert Flat(items) == front + Flat(items[1..]);
    InsertInEnd(Flat(items), front, Flat(items[1..]), m, rest', grown, k + n);
  }

  lemma {:induction false} AddedInSiblings(items: seq<ChapterItem>, parentId: int, child: ChapterItem)
    requires items != [] && items[0].id != parentId && !AddChild(items[0].children, parentId, child).1
    ensures Flat(AddChild(items, parentId, child).0) ==
      ([EntryOf(items[0])] + Flat(items[0].children)) + Flat(AddChild(items[1..], parentId, child).0)
  {
    var x, rest' := items[0], AddChild(items[1..], parentId, child).0;
    assert AddChild(items, parentId, child).0 == [x] + rest';
    assert ([x] + rest')[1..] == rest';
  }

  /**
   * The node that gains the child is the first one with the id: at its
   * pre-order position the new tree holds that node with the child appended
   * to its children.
   */
  lemma {:induction false} AddChildToFirstMatch(items: seq<ChapterItem>, parentId: int, child: ChapterItem)
    requires FirstWithId(Flat(items), parentId) < |Flat(items)|
    ensures var k := FirstWithId(Flat(items), parentId); var r := AddChild(items, parentId, child).0;
      k < |Flat(r)| && NodeAt(r, k) == NodeAt(items, k).(children := NodeAt(items, k).children + [child])
    decreases items, 2
  {
    FirstWithIdSplit(items, parentId);
    if items[0].id == parentId {
      AddedAtHead(items, parentId, child);
    } else if FirstWithId(Flat(items[0].children), parentId) < |Flat(items[0].children)| {
      GrowInChildren(items, parentId, child, FirstWithId(Flat(items[0].children), parentId));
    } else {
      MatchInSiblings(items, parentId, FirstWithId(Flat(items[1..]), parentId));
      GrowInSiblings(items, parentId, child, FirstWithId(Flat(items[1..]), parentId));
    }
  }

  lemma {:induction false} GrowInChildren(items: seq<ChapterItem>, parentId: int, child: ChapterItem, k: nat)
    requires items != [] && items[0].id != parentId
    requires k == FirstWithId(Flat(items[0].children), parentId) < |Flat(items[0].children)|
    ensures var r := AddChild(items, parentId, child).0;
      1 + k < |Flat(r)| && 1 + k < |Flat(items)| &&
      NodeAt(r, 1 + k) == NodeAt(items, 1 + k).(children := NodeAt(items, 1 + k).children + [child])
    decreases items, 1
  {
    var x := items[0];
    var r := AddChild(items, parentId, child).0;
    AddChildFindsAnyMatch(x.children, parentId, child);
    AddChildAfterFirstMatch(x.children, parentId, child);
    AddedInChildren(items, parentId, child);
    var kids := AddChild(x.children, parentId, child).0;
    assert r[0] == x.(children := kids);
    AddChildToFirstMatch(x.children, parentId, child);
    NodeAtInChildren(items, k);
  }

  /** A node without the parent below it is kept, and the search goes on among its siblings. */
  lemma {:induction false} AddChildPassesOver(items: seq<ChapterItem>, parentId: int, child: ChapterItem)
    requires items != [] && items[0].id != parentId && !AddChild(items[0].children, parentId, child).1
    ensures AddChild(items, parentId, child).0 == [items[0]] + AddChild(items[1..], parentId, child).0
  {
  }

  /**
   * When only the siblings after a head node change, and the node at
   * position `k` among them gains the child, the node at the matching
   * position of the whole list gains it.
   */
  lemma {:induction false} GrowAfterHead(items: seq<ChapterItem>, r: seq<ChapterItem>, rest': seq<ChapterItem>, child: ChapterItem, k: nat)
    requires items != [] && r == [items[0]] + rest'
    requires k < |Flat(items[1..])| && k < |Flat(rest')|
    requires NodeAt(rest', k) == NodeAt(items[1..], k).(children := NodeAt(items[1..], k).children + [child])
    ensures var j := 1 + |Flat(items[0].children)| + k;
      j < |Flat(r)| && j < |Flat(items)| &&
      NodeAt(r, j) == NodeAt(items, j).(children := NodeAt(items, j).children + [child])
  {
    assert r[0] == items[0] && r[1..] == rest';
  }

  lemma {:induction false} GrowInSiblings(items: seq<ChapterItem>, parentId: int, child: ChapterItem, k: nat)
    requires items != [] && items[0].id != parentId
    requires FirstWithId(Flat(items[0].children), parentId) == |Flat(items[0].children)|
    requires k == FirstWithId(Flat(items[1..]), parentId) < |Flat(items[1..])|
    ensures var r := AddChild(items, parentId, child).0; var j := 1 + |Flat(items[0].children)| + k;
      j < |Flat(r)| && j < |Flat(items)| &&
      NodeAt(r, j) == NodeAt(items, j).(children := NodeAt(items, j).children + [child])
    decreases items, 1
  {
    AddChildFindsAnyMatch(items[0].children, parentId, child);
    AddChildPassesOver(items, parentId, child);
    AddChildToFirstMatch(items[1..], parentId, child);
    GrowAfterHead(items, AddChild(items, parentId, child).0, AddChild(items[1..], parentId, child).0, child, k);
  }

  /** Inserting between the two parts of a concatenation inserts at the length of the first. */
  lemma {:induction false} InsertBetween<T>(whole: seq<T>, a: seq<T>, b: seq<T>, m: seq<T>, grown: seq<T>)
    requires whole == a + b && grown == a + m + b
    ensures |a| <= |whole| && grown == whole[..|a|] + m + whole[|a|..]
  {
    assert whole[..|a|] == a && whole[|a|..] == b;
  }

  /** Inserting inside the middle part of a concatenation inserts into the whole. */
  lemma {:induction false} InsertInMiddle<T>(whole: seq<T>, a: seq<T>, b: seq<T>, c: seq<T>, m: seq<T>, b': seq<T>, grown: seq<T>, j: nat)
    requires whole == a + b + c && j <= |b|
    requires b' == b[..j] + m + b[j..] && grown == a + b' + c
    ensures |a| + j <= |whole| && grown == whole[..|a| + j] + m + whole[|a| + j..]
  {
    PrefixIntoMiddle(a, b, c, j);
    SuffixFromMiddle(a, b, c, j);
  }

  /** Inserting inside the last part of a concatenation inserts into the whole. */
  lemma {:induction false} InsertInEnd<T>(whole: seq<T>, a: seq<T>, b: seq<T>, m: seq<T>, b': seq<T>, grown: seq<T>, j: nat)
    requires whole == a + b && j <= |b|
    requires b' == b[..j] + m + b[j..] && grown == a + b'
    ensures |a| + j <= |whole| && grown == whole[..|a| + j] + m + whole[|a| + j..]
  {
    assert whole[..|a| + j] == a + b[..j];
    assert whole[|a| + j..] == b[j..];
  }

  // ---------------------------------------------------------------------
  // updateChapterTitle: the renaming search
  // ---------------------------------------------------------------------

  /**
   * `find(items)`: in each list, the first node with the id takes the title
   * and the rest of that list is skipped; the children of every node
   * before it are searched, and a rename found there does not stop the
   * search of the list.
   */
  function Rename(items: seq<ChapterItem>, id: int, title: string): (r: seq<ChapterItem>)
    ensures |r| == |items|
    decreases items
  {
    if items == [] then []
    else if items[0].id == id then [items[0].(title := title)] + items[1..]
    else [items[0].(children := Rename(items[0].children, id, title))] + Rename(items[1..], id, title)
  }

  /** `find(items)` as the source runs it: a `for` loop that returns at the first match, recursing into children. */
  method Find(items: seq<ChapterItem>, id: int, title: string) returns (r: seq<ChapterItem>)
    ensures r == Rename(items, id, title)
    decreases items
  {
    r := [];
    var i := 0;
    assert items[0..] == items;
    while i < |items|
      invariant 0 <= i <= |items|
      invariant Rename(items, id, title) == r + Rename(items[i..], id, title)
    {
      var tail := items[i..];
      assert tail[0] == items[i] && tail[1..] == items[i + 1..];
      if items[i].id == id {
        assert Rename(tail, id, title) == [items[i].(title := title)] + items[i + 1..];
        r := r + [items[i].(title := title)] + items[i + 1..];
        return;
      }
      var kids := Find(items[i].children, id, title);
      assert Rename(tail, id, title) == [items[i].(children := kids)] + Rename(items[i + 1..], id, title);
      r := r + [items[i].(children := kids)];
      i := i + 1;
    }
    assert items[i..] == [];
    assert r + [] == r;
  }

  /** A tree with its titles blanked: what renaming must leave alone. */
  function Untitled(items: seq<ChapterItem>): (r: seq<ChapterItem>)
    ensures |r| == |items|
    decreases items
  {
    if items == [] then [] else [ChapterItem(items[0].id, "", items[0].level, Untitled(items[0].children))] + Untitled(items[1..])
  }

  /** Renaming keeps the shape of the tree, every id and every level: only titles change. */
  lemma {:induction false} RenameKeepsShape(items: seq<ChapterItem>, id: int, title: string)
    ensures Untitled(Rename(items, id, title)) == Untitled(items)
    decreases items
  {
    if items != [] {
      var r := Rename(items, id, title);
      assert r[1..] == if items[0].id == id then items[1..] else Rename(items[1..], id, title);
      if items[0].id != id {
        RenameKeepsShape(items[0].children, id, title);
        RenameKeepsShape(items[1..], id, title);
      }
    }
  }

  /** Each entry of `b` is that of `a`, or, where `a`'s has the id, the same entry with the new title. */
  predicate Retitled(a: seq<Entry>, b: seq<Entry>, id: int, title: string)
  {
    |a| == |b| && forall k :: 0 <= k < |a| ==> b[k] == a[k] || (a[k].id == id && b[k] == a[k].(title := title))
  }

  lemma {:induction false} RetitledAppend(a1: seq<Entry>, b1: seq<Entry>, a2: seq<Entry>, b2: seq<Entry>, id: int, title: string)
    requires Retitled(a1, b1, id, title) && Retitled(a2, b2, id, title)
    ensures Retitled(a1 + a2, b1 + b2, id, title)
  {
    forall k | 0 <= k < |a1 + a2|
      ensures (b1 + b2)[k] == (a1 + a2)[k] || ((a1 + a2)[k].id == id && (b1 + b2)[k] == (a1 + a2)[k].(title := title))
    {
      if k >= |a1| {
        assert (b1 + b2)[k] == b2[k - |a1|] && (a1 + a2)[k] == a2[k - |a1|];
      }
    }
  }

  lemma {:induction false} RetitledSame(a: seq<Entry>, id: int, title: string)
    ensures Retitled(a, a, id, title)
  {
  }

  /** In pre-order, renaming changes only titles, and only those of nodes with the id, to the new title. */
  lemma {:induction false} RenameOnlyRetitles(items: seq<ChapterItem>, id: int, title: string)
    ensures Retitled(Flat(items), Flat(Rename(items, id, title)), id, title)
    decreases items
  {
    if items != [] {
      var x, rest := items[0], items[1..];
      var r := Rename(items, id, title);
      assert Flat(items) == [EntryOf(x)] + Flat(x.children) + Flat(rest);
      assert r[1..] == if x.id == id then rest else Rename(rest, id, title);
      assert Flat(r) == [EntryOf(r[0])] + Flat(r[0].children) + Flat(r[1..]);
      assert Retitled([EntryOf(x)], [EntryOf(r[0])], id, title);
      if x.id == id {
        RetitledSame(Flat(x.children), id, title);
        RetitledSame(Flat(rest), id, title);
      } else {
        RenameOnlyRetitles(x.children, id, title);
        RenameOnlyRetitles(rest, id, title);
      }
      RetitledAppend([EntryOf(x)], [EntryOf(r[0])], Flat(x.children), Flat(r[0].children), id, title);
      RetitledAppend([EntryOf(x)] + Flat(x.children), [EntryOf(r[0])] + Flat(r[0].children), Flat(rest), Flat(r[1..]), id, title);
    }
  }

  /**
   * A match found among a node's children does not end the search of the
   * list holding that node: a later sibling with the same id is renamed too.
   */
  lemma {:induction false} RenameCanRetitleTwo()
    ensures var a := ChapterItem(1, "A", 1, [ChapterItem(5, "X", 2, [])]);
      var b := ChapterItem(5, "B", 1, []);
      Rename([a, b], 5, "T") == [a.(children := [ChapterItem(5, "T", 2, [])]), b.(title := "T")]
  {
    var a := ChapterItem(1, "A", 1, [ChapterItem(5, "X", 2, [])]);
    var b := ChapterItem(5, "B", 1, []);
    assert Rename(a.children, 5, "T") == [ChapterItem(5, "T", 2, [])];
    assert [a, b][1..] == [b];
    assert Rename([b], 5, "T") == [b.(title := "T")];
    assert Rename([a, b], 5, "T") == [a.(children := Rename(a.children, 5, "T"))] + Rename([b], 5, "T");
  }

  /** Without a node with the id, renaming changes nothing. */
  lemma {:induction false} RenameWithoutMatch(items: seq<ChapterItem>, id: int, title: string)
    requires FirstWithId(Flat(items), id) == |Flat(items)|
    ensures Rename(items, id, title) == items
    decreases items
  {
    if items != [] {
      FirstWithIdSplit(items, id);
      RenameWithoutMatch(items[0].children, id, title);
      RenameWithoutMatch(items[1..], id, title);
      assert [items[0]] + items[1..] == items;
    }
  }

  /** The first node with the id in pre-order always receives the new title. */
  lemma {:induction false} RenameReachesFirstMatch(items: seq<ChapterItem>, id: int, title: string)
    requires FirstWithId(Flat(items), id) < |Flat(items)|
    ensures var k := FirstWithId(Flat(items), id);
      k < |Flat(Rename(items, id, title))| && Flat(Rename(items, id, title))[k] == Flat(items)[k].(title := title)
    decreases items, 2
  {
    FirstWithIdSplit(items, id);
    if items[0].id == id {
      RenameAtHead(items, id, title);
    } else if FirstWithId(Flat(items[0].children), id) < |Flat(items[0].children)| {
      RenameInChildren(items, id, title, FirstWithId(Flat(items[0].children), id));
    } else {
      MatchInSiblings(items, id, FirstWithId(Flat(items[1..]), id));
      RenameInSiblings(items, id, title, FirstWithId(Flat(items[1..]), id));
    }
  }

  /** A head node with the id takes the title, at the first place of the pre-order. */
  lemma {:induction false} RenameAtHead(items: seq<ChapterItem>, id: int, title: string)
    requires items != [] && items[0].id == id
    ensures 0 < |Flat(Rename(items, id, title))| && 0 < |Flat(items)|
    ensures Flat(Rename(items, id, title))[0] == Flat(items)[0].(title := title)
  {
    assert Flat(items)[0] == EntryOf(items[0]);
    assert Flat(Rename(items, id, title))[0] == EntryOf(items[0].(title := title));
  }

  lemma {:induction false} RenameInChildren(items: seq<ChapterItem>, id: int, title: string, k: nat)
    requires items != [] && items[0].id != id
    requires k == FirstWithId(Flat(items[0].children), id) < |Flat(items[0].children)|
    ensures 1 + k < |Flat(Rename(items, id, title))| && 1 + k < |Flat(items)|
    ensures Flat(Rename(items, id, title))[1 + k] == Flat(items)[1 + k].(title := title)
    decreases items, 1
  {
    var x, r := items[0], Rename(items, id, title);
    var kids := Rename(x.children, id, title);
    assert r == [x.(children := kids)] + Rename(items[1..], id, title);
    assert r[1..] == Rename(items[1..], id, title);
    assert Flat(r) == [EntryOf(x)] + Flat(kids) + Flat(r[1..]);
    assert Flat(items) == [EntryOf(x)] + Flat(x.children) + Flat(items[1..]);
    RenameOnlyRetitles(x.children, id, title);
    RenameReachesFirstMatch(x.children, id, title);
  }

  lemma {:induction false} RenameInSiblings(items: seq<ChapterItem>, id: int, title: string, k: nat)
    requires items != [] && items[0].id != id
    requires FirstWithId(Flat(items[0].children), id) == |Flat(items[0].children)|
    requires k == FirstWithId(Flat(items[1..]), id) < |Flat(items[1..])|
    ensures var j := 1 + |Flat(items[0].children)| + k;
      j < |Flat(Rename(items, id, title))| && j < |Flat(items)| &&
      Flat(Rename(items, id, title))[j] == Flat(items)[j].(title := title)
    decreases items, 1
  {
    RenameWithoutMatch(items[0].children, id, title);
    RenamePassesOver(items, id, title);
    RenameReachesFirstMatch(items[1..], id, title);
    RetitleAfterHead(items, Rename(items, id, title), Rename(items[1..], id, title), title, k);
  }

  /** A head node whose subtree keeps its titles is kept, and renaming goes on among its siblings. */
  lemma {:induction false} RenamePassesOver(items: seq<ChapterItem>, id: int, title: string)
    requires items != [] && items[0].id != id && Rename(items[0].children, id, title) == items[0].children
    ensures Rename(items, id, title) == [items[0]] + Rename(items[1..], id, title)
  {
  }

  /** A title changed at position `k` of the siblings' pre-order is changed in the whole, past the head's subtree. */
  lemma {:induction false} RetitleAfterHead(items: seq<ChapterItem>, r: seq<ChapterItem>, rest': seq<ChapterItem>, title: string, k: nat)
    requires items != [] && r == [items[0]] + rest'
    requires k < |Flat(items[1..])| && k < |Flat(rest')|
    requires Flat(rest')[k] == Flat(items[1..])[k].(title := title)
    ensures var j := 1 + |Flat(items[0].children)| + k;
      j < |Flat(r)| && j < |Flat(items)| && Flat(r)[j] == Flat(items)[j].(title := title)
  {
    assert r[0] == items[0] && r[1..] == rest';
    assert Flat(r) == ([EntryOf(items[0])] + Flat(items[0].children)) + Flat(rest');
    assert Flat(items) == ([EntryOf(items[0])] + Flat(items[0].children)) + Flat(items[1..]);
  }

  // ---------------------------------------------------------------------
  // moveChapter
  // ---------------------------------------------------------------------

  /** `moveChapter(index, direction)`: swap with the neighbour `direction` away, if there is one. */
  function Moved(chs: seq<ChapterItem>, index: int, direction: int): (r: seq<ChapterItem>)
    requires 0 <= index < |chs|
    ensures |r| == |chs|
  {
    var j := index + direction;
    if j < 0 || j >= |chs| then chs else chs[index := chs[j]][j := chs[index]]
  }

  /**
   * With the neighbour inside the list, the two chapters change places and
   * every other one stays; with it outside, nothing changes.
   */
  lemma {:induction false} MovedSwaps(chs: seq<ChapterItem>, index: int, direction: int)
    requires 0 <= index < |chs|
    ensures var j := index + direction; var r := Moved(chs, index, direction);
      if 0 <= j < |chs| then
        r[j] == chs[index] && r[index] == chs[j] && forall k :: 0 <= k < |chs| && k != index && k != j ==> r[k] == chs[k]
      else r == chs
  {
  }

  /** Swapping two places of a sequence keeps its multiset. */
  lemma {:induction false} SwapPermutes<T>(s: seq<T>, i: nat, j: nat)
    requires i < |s| && j < |s|
    ensures multiset(s[i := s[j]][j := s[i]]) == multiset(s)
  {
    if i != j {
      var once := s[i := s[j]];
      assert once[j] == s[j];
      assert multiset(once) == multiset(s) - multiset{s[i]} + multiset{s[j]};
      assert multiset(once[j := s[i]]) == multiset(once) - multiset{s[j]} + multiset{s[i]};
    }
  }

  /** A move only reorders: the same chapters, each as often. */
  lemma {:induction false} MovedPermutes(chs: seq<ChapterItem>, index: int, direction: int)
    requires 0 <= index < |chs|
    ensures multiset(Moved(chs, index, direction)) == multiset(chs)
  {
    var j := index + direction;
    if 0 <= j < |chs| {
      SwapPermutes(chs, index, j);
    }
  }

  /** Moving the chapter back from where it went undoes the move. */
  lemma {:induction false} MovedBack(chs: seq<ChapterItem>, index: int, direction: int)
    requires 0 <= index < |chs| && 0 <= index + direction < |chs|
    ensures Moved(Moved(chs, index, direction), index + direction, -direction) == chs
  {
  }
}
