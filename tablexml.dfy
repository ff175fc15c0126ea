// Border and shading edits on a table's XML: `remove_table_borders`,
// `set_table_border`, `set_table_border_top` and `set_cell_shading`. Each
// border edit finds the first `tblPr` child of the table element (inserting a
// new one at position 0 when there is none) and appends one new `tblBorders`
// group to it; nothing is ever replaced.
module TableXml {
  import opened Wrappers
  import opened Text
  import opened Document

  /** The position of the first `tblPr` child, as `tbl.find(qn('w:tblPr'))` finds it. */
  function FirstTblPr(xml: seq<TblChild>): (r: Option<nat>)
    ensures r.Some? ==> r.value < |xml| && xml[r.value].TblPr? && forall j :: 0 <= j < r.value ==> !xml[j].TblPr?
    ensures r.None? ==> forall j :: 0 <= j < |xml| ==> !xml[j].TblPr?
    decreases |xml|
  {
    if xml == [] then None
    else if xml[0].TblPr? then Some(0)
    else match FirstTblPr(xml[1..])
      case None => None
      case Some(i) => Some(i + 1)
  }

  /** Append one `tblBorders` group to the first `tblPr`, creating that element first if needed. */
  function BordersAppended(xml: seq<TblChild>, group: seq<Border>): seq<TblChild>
  {
    match FirstTblPr(xml)
    case Some(i) => xml[i := TblPr(xml[i].props + [TblBorders(group)])]
    case None => [TblPr([TblBorders(group)])] + xml
  }

  /** The six `nil` borders, in the order top, left, bottom, right, insideH, insideV. */
  const NilBorders: seq<Border> :=
    [NilBorder(Top), NilBorder(LeftSide), NilBorder(Bottom), NilBorder(RightSide), NilBorder(InsideH), NilBorder(InsideV)]

  /** Four single outer borders of the given size and colour, then nil inner borders. */
  function FrameBorders(colorHex: string, size: string): seq<Border>
  {
    var c := LStrip(colorHex, '#');
    [SingleBorder(Top, size, c), SingleBorder(LeftSide, size, c), SingleBorder(Bottom, size, c),
     SingleBorder(RightSide, size, c), NilBorder(InsideH), NilBorder(InsideV)]
  }

  function TopBorder(colorHex: string, size: string): seq<Border>
  {
    [SingleBorder(Top, size, LStrip(colorHex, '#'))]
  }

  function BordersRemoved(xml: seq<TblChild>): seq<TblChild>
  {
    BordersAppended(xml, NilBorders)
  }

  function BorderSet(xml: seq<TblChild>, colorHex: string, size: string): seq<TblChild>
  {
    BordersAppended(xml, FrameBorders(colorHex, size))
  }

  function TopBorderSet(xml: seq<TblChild>, colorHex: string, size: string): seq<TblChild>
  {
    BordersAppended(xml, TopBorder(colorHex, size))
  }

  /** `set_cell_shading`: one more `shd` fill, the colour without its leading '#'. */
  function SetCellShading(c: Cell, colorHex: string): (r: Cell)
    ensures r.blocks == c.blocks && r.shading == c.shading + [LStrip(colorHex, '#')]
  {
    c.(shading := c.shading + [LStrip(colorHex, '#')])
  }

  /** The XML of a freshly added table: properties (width, look) and the column grid. */
  const NewTableXml: seq<TblChild> := [TblPr([OtherProperty("tblW"), OtherProperty("tblLook")]), OtherTblChild("tblGrid")]

  // ---------------------------------------------------------------------
  // The edits as the source performs them, on a mutable element
  // ---------------------------------------------------------------------

  /** A `w:tbl` element whose child list the edits change in place. */
  class TableElement {
    var children: seq<TblChild>

    constructor (xml: seq<TblChild>)
      ensures children == xml
    {
      children := xml;
    }

    /** `find(qn('w:tblPr'))`: a scan for the first `tblPr` child. */
    method FindTblPr() returns (r: Option<nat>)
      ensures r == FirstTblPr(children)
    {
      var i := 0;
      while i < |children|
        invariant 0 <= i <= |children|
        invariant forall j :: 0 <= j < i ==> !children[j].TblPr?
        decreases |children| - i
      {
        if children[i].TblPr? {
          FirstTblPrAt(children, i);
          return Some(i);
        }
        i := i + 1;
      }
      FirstTblPrNone(children);
      return None;
    }

    method AppendBorders(group: seq<Border>)
      modifies this
      ensures children == BordersAppended(old(children), group)
    {
      var found := FindTblPr();
      match found {
        case Some(i) =>
          children := children[i := TblPr(children[i].props + [TblBorders(group)])];
        case None =>
          children := [TblPr([TblBorders(group)])] + children;
      }
    }

    method RemoveTableBorders()
      modifies this
      ensures children == BordersRemoved(old(children))
    {
      AppendBorders(NilBorders);
    }

    method SetTableBorder(colorHex: string, size: string)
      modifies this
      ensures children == BorderSet(old(children), colorHex, size)
    {
      AppendBorders(FrameBorders(colorHex, size));
    }

    method SetTableBorderTop(colorHex: string, size: string)
      modifies this
      ensures children == TopBorderSet(old(children), colorHex, size)
    {
      AppendBorders(TopBorder(colorHex, size));
    }
  }

  lemma {:induction false} FirstTblPrAt(xml: seq<TblChild>, i: nat)
    requires i < |xml| && xml[i].TblPr? && forall j :: 0 <= j < i ==> !xml[j].TblPr?
    ensures FirstTblPr(xml) == Some(i)
    decreases i
  {
    if i > 0 {
      assert !xml[0].TblPr?;
      FirstTblPrAt(xml[1..], i - 1);
    }
  }

  lemma {:induction false} FirstTblPrNone(xml: seq<TblChild>)
    requires forall j :: 0 <= j < |xml| ==> !xml[j].TblPr?
    ensures FirstTblPr(xml) == None
  {
  }

  // ---------------------------------------------------------------------
  // What the edits do to the element
  // ---------------------------------------------------------------------

  /** The number of `tblBorders` groups in the properties of the first `tblPr`. */
  function BorderGroups(xml: seq<TblChild>): nat
  {
    match FirstTblPr(xml)
    case None => 0
    case Some(i) => CountGroups(xml[i].props)
  }

  function CountGroups(props: seq<TblPrChild>): nat
  {
    if props == [] then 0 else CountGroups(props[..|props| - 1]) + (if props[|props| - 1].TblBorders? then 1 else 0)
  }

  /**
   * Appending a group keeps everything that was there: with a `tblPr`, only its
   * property list changes, by the new group at its end; without one, a new
   * `tblPr` holding just the group is inserted in front of the old children.
   */
  lemma {:induction false} AppendBordersEffect(xml: seq<TblChild>, group: seq<Border>)
    ensures var r := BordersAppended(xml, group);
      match FirstTblPr(xml)
      case Some(i) =>
        |r| == |xml| && r[i] == TblPr(xml[i].props + [TblBorders(group)])
        && (forall j :: 0 <= j < |xml| && j != i ==> r[j] == xml[j])
      case None =>
        r == [TblPr([TblBorders(group)])] + xml
    ensures FirstTblPr(BordersAppended(xml, group)).Some?
    ensures BorderGroups(BordersAppended(xml, group)) == BorderGroups(xml) + 1
  {
    var r := BordersAppended(xml, group);
    match FirstTblPr(xml)
    case Some(i) =>
      FirstTblPrAt(r, i);
      var p := xml[i].props + [TblBorders(group)];
      assert p[..|p| - 1] == xml[i].props;
      assert CountGroups(p) == CountGroups(xml[i].props) + 1;
    case None =>
      FirstTblPrAt(r, 0);
      var p := [TblBorders(group)];
      assert p[..0] == [];
      assert CountGroups(p) == 1;
  }

  /**
   * `remove_table_borders` is not idempotent: a second call appends a second
   * group of nil borders, so the element differs from the one after one call.
   */
  lemma {:induction false} RemoveTableBordersNotIdempotent(xml: seq<TblChild>)
    ensures BorderGroups(BordersRemoved(BordersRemoved(xml))) == BorderGroups(xml) + 2
    ensures BordersRemoved(BordersRemoved(xml)) != BordersRemoved(xml)
  {
    AppendBordersEffect(xml, NilBorders);
    AppendBordersEffect(BordersRemoved(xml), NilBorders);
  }

  /** On a fresh table, the nil group is the only border group, after the existing properties. */
  lemma {:induction false} RemoveBordersOfNewTable()
    ensures BordersRemoved(NewTableXml)
      == [TblPr([OtherProperty("tblW"), OtherProperty("tblLook"), TblBorders(NilBorders)]), OtherTblChild("tblGrid")]
  {
    FirstTblPrAt(NewTableXml, 0);
    assert NewTableXml[0].props + [TblBorders(NilBorders)]
      == [OtherProperty("tblW"), OtherProperty("tblLook"), TblBorders(NilBorders)];
  }

  /** Stripping the '#' before `set_cell_shading` changes nothing: the fill is the same. */
  lemma {:induction false} ShadingStripsOnce(c: Cell, colorHex: string)
    ensures SetCellShading(c, LStrip(colorHex, '#')) == SetCellShading(c, colorHex)
  {
    LStripIdempotent(colorHex, '#');
  }
}
