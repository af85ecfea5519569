/**
 The effect itself: read the options of the active tab's axis, scale them to
 user units, optionally ask for the existing guides of that orientation to
 be deleted, and ask for the main double-guide pass and, when the gutter is
 positive and centre guides are wanted, the centre pass. The result is the
 ordered list of requests the effect would hand to the guide helpers, which
 carry them out; those helpers are not part of this model.
 */
module GridGuides {
  import opened Wrappers
  import opened PyNumbers
  import opened Grid
  import opened CenterGuides
  import opened Placement

  /** A call into the guide helpers: delete all guides of an orientation, or draw one pass. */
  datatype Request =
    | Delete(orientation: Orientation)
    | Draw(pass: Pass, orientation: Orientation)

  /**
   The options of one axis as the user entered them: lengths in the axis's
   unit, `unit` being the number of user units in one of it, and the count
   still a float.
   */
  datatype AxisOptions = AxisOptions(
    unit: real,
    alignment: string,
    offset: real,
    count: real,
    size: real,
    gutter: real,
    outerGutter: bool,
    centerGuides: bool,
    deleteGuides: bool)

  /** Width and height of the canvas in user units. */
  datatype Canvas = Canvas(width: real, height: real)

  /**
   The requests issued by one run. `UnboundStart` is a run whose alignment
   string matched no mode of the axis: the requests issued before the start
   coordinate was needed stand, and the run stops there with an error.
   */
  datatype Outcome =
    | Completed(requests: seq<Request>)
    | UnboundStart(requests: seq<Request>)

  /** The tab selector; the effect compares it with the quoted words, quotes included. */
  function ParseTab(tab: string): (axis: Option<Axis>)
    ensures axis == Some(Columns) <==> tab == "\"columns\""
    ensures axis == Some(Rows) <==> tab == "\"rows\""
    ensures axis.None? <==> tab != "\"columns\"" && tab != "\"rows\""
  {
    if tab == "\"columns\"" then Some(Columns)
    else if tab == "\"rows\"" then Some(Rows)
    else None
  }

  /** Columns are marked by vertical guides, rows by horizontal ones. */
  function OrientationOf(axis: Axis): Orientation {
    match axis
    case Columns => Vertical
    case Rows => Horizontal
  }

  /**
   The main pass for `axis`: the grid the user asked for, in user units,
   placed on a canvas whose extent along the axis is `extent`. The placement
   is stated against the grid's own parts (`Width`), for every grid the
   total-extent formula measures correctly.
   */
  function MainPass(axis: Axis, a: Alignment, o: AxisOptions, extent: real): (p: Pass)
    requires Accepts(axis, a)
    // the count is the option truncated toward zero and never scaled; lengths are scaled by the unit
    ensures p.count == Trunc(o.count) && p.outer == o.outerGutter
    ensures p.cellSize == o.size * o.unit && p.gutter == o.gutter * o.unit
    // left columns begin at the offset; bottom rows begin the offset below the bottom edge
    ensures axis == Columns && a == Left ==> p.start == o.offset * o.unit
    ensures axis == Rows && a == Bottom ==> p.start == -(o.offset * o.unit)
    // right columns end exactly at the right edge, moved right by the offset
    ensures Measured(p) && axis == Columns && a == Right ==> p.start + Width(p) == extent + o.offset * o.unit
    // top rows end the offset below the rounded top edge, so within 1/2 of the top edge moved down
    ensures Measured(p) && axis == Rows && a == Top ==> p.start + Width(p) + o.offset * o.unit == Round(extent) as real
    ensures Measured(p) && axis == Rows && a == Top ==> Abs(p.start + Width(p) + o.offset * o.unit - extent) <= 0.5
    // centred grids have their midpoint within 1 of the canvas middle, moved by the offset
    ensures Measured(p) && axis == Columns && a == Centered ==>
      Abs(p.start + Width(p) / 2.0 - (extent / 2.0 + o.offset * o.unit)) <= 1.0
    ensures Measured(p) && axis == Rows && a == Centered ==>
      Abs(p.start + Width(p) / 2.0 - (extent / 2.0 - o.offset * o.unit)) <= 1.0
  {
    var count := Trunc(o.count);
    var size := o.size * o.unit;
    var gutter := o.gutter * o.unit;
    var total := TotalExtent(count, size, gutter, o.outerGutter);
    var p := Pass(count, size, gutter, Start(axis, a, extent, total, o.offset * o.unit), o.outerGutter);
    if count >= 0 then
      TotalExtentIsSpan(count, size, gutter, o.outerGutter);
      p
    else
      p
  }

  /** Whether the centre pass is requested: a positive gutter in user units and the option set. */
  predicate WantsCenterPass(o: AxisOptions) {
    o.gutter * o.unit > 0.0 && o.centerGuides
  }

  /** The drawing requests once the alignment is known: the main pass, then the centre pass if wanted. */
  function Draws(axis: Axis, a: Alignment, o: AxisOptions, extent: real): (d: seq<Request>)
    requires Accepts(axis, a)
    ensures |d| == if WantsCenterPass(o) then 2 else 1
    ensures forall i :: 0 <= i < |d| ==> d[i].Draw? && d[i].orientation == OrientationOf(axis)
    ensures d[0].pass == MainPass(axis, a, o, extent)
    ensures |d| == 2 ==> d[1].pass == CenterPass(d[0].pass)
  {
    var main := Draw(MainPass(axis, a, o, extent), OrientationOf(axis));
    if WantsCenterPass(o) then [main, Draw(CenterPass(main.pass), OrientationOf(axis))] else [main]
  }

  /** The requests for one axis whose canvas extent is `extent`. */
  function AxisEffect(axis: Axis, o: AxisOptions, extent: real): (out: Outcome)
    // every request concerns guides of the axis's own orientation
    ensures forall i :: 0 <= i < |out.requests| ==> out.requests[i].orientation == OrientationOf(axis)
    // a deletion is requested exactly when asked for, and only before any drawing
    ensures (|out.requests| > 0 && out.requests[0].Delete?) <==> o.deleteGuides
    ensures forall i :: 0 < i < |out.requests| ==> out.requests[i].Draw?
    // the run fails exactly when the alignment names no mode of the axis, and then draws nothing
    ensures out.UnboundStart? <==> ParseAlignment(axis, o.alignment).None?
    ensures out.UnboundStart? ==> forall i :: 0 <= i < |out.requests| ==> out.requests[i].Delete?
    // a completed run draws exactly the passes for the parsed alignment, after the deletion
    ensures out.Completed? ==>
      out.requests == (if o.deleteGuides then [Delete(OrientationOf(axis))] else [])
                      + Draws(axis, ParseAlignment(axis, o.alignment).value, o, extent)
  {
    var deletes := if o.deleteGuides then [Delete(OrientationOf(axis))] else [];
    match ParseAlignment(axis, o.alignment)
    case None => UnboundStart(deletes)
    case Some(a) => Completed(deletes + Draws(axis, a, o, extent))
  }

  /**
   One run of the effect: the tab picks the axis, and only that axis's
   options and canvas extent are used; any other tab issues nothing.
   */
  function Effect(tab: string, columns: AxisOptions, rows: AxisOptions, canvas: Canvas): (out: Outcome)
    ensures ParseTab(tab).None? ==> out == Completed([])
    ensures ParseTab(tab).Some? ==>
      forall i :: 0 <= i < |out.requests| ==> out.requests[i].orientation == OrientationOf(ParseTab(tab).value)
    ensures forall i :: 0 < i < |out.requests| ==> out.requests[i].Draw?
    // the deletion is governed by the selected axis's own option
    ensures ParseTab(tab) == Some(Columns) ==> ((|out.requests| > 0 && out.requests[0].Delete?) <==> columns.deleteGuides)
    ensures ParseTab(tab) == Some(Rows) ==> ((|out.requests| > 0 && out.requests[0].Delete?) <==> rows.deleteGuides)
  {
    match ParseTab(tab)
    case None => Completed([])
    case Some(Columns) => AxisEffect(Columns, columns, canvas.width)
    case Some(Rows) => AxisEffect(Rows, rows, canvas.height)
  }

  /** The options and the canvas extent of the axis the tab does not select never matter. */
  lemma OtherAxisIgnored(tab: string, columns: AxisOptions, rows: AxisOptions, canvas: Canvas,
                         columns': AxisOptions, rows': AxisOptions, canvas': Canvas)
    requires ParseTab(tab) == Some(Columns) ==> columns' == columns && canvas'.width == canvas.width
    requires ParseTab(tab) == Some(Rows) ==> rows' == rows && canvas'.height == canvas.height
    ensures Effect(tab, columns, rows, canvas) == Effect(tab, columns', rows', canvas')
  {
  }

  /** The same options with every length already converted to user units. */
  function InUserUnits(o: AxisOptions): (o': AxisOptions)
    ensures o'.unit == 1.0
    ensures o'.offset == o.offset * o.unit && o'.size == o.size * o.unit && o'.gutter == o.gutter * o.unit
    ensures o'.count == o.count
  {
    o.(unit := 1.0, offset := o.offset * o.unit, size := o.size * o.unit, gutter := o.gutter * o.unit)
  }

  /**
   The unit enters only as a factor on the offset, the cell size and the
   gutter: converting those beforehand gives the same run. The count is not
   scaled.
   */
  lemma UnitIsAFactor(tab: string, columns: AxisOptions, rows: AxisOptions, canvas: Canvas)
    ensures Effect(tab, columns, rows, canvas) == Effect(tab, InUserUnits(columns), InUserUnits(rows), canvas)
  {
    AxisUnitIsAFactor(Columns, columns, canvas.width);
    AxisUnitIsAFactor(Rows, rows, canvas.height);
  }

  /** The same, for the requests of one axis. */
  lemma AxisUnitIsAFactor(axis: Axis, o: AxisOptions, extent: real)
    ensures AxisEffect(axis, o, extent) == AxisEffect(axis, InUserUnits(o), extent)
  {
    var u := InUserUnits(o);
    assert u.size * u.unit == o.size * o.unit && u.gutter * u.unit == o.gutter * o.unit;
    assert u.offset * u.unit == o.offset * o.unit;
    if ParseAlignment(axis, o.alignment).Some? {
      var a := ParseAlignment(axis, o.alignment).value;
      assert MainPass(axis, a, o, extent) == MainPass(axis, a, u, extent);
    }
  }

  /**
   Right-aligned columns with no cells and no outer gutters: the formula's
   total of minus one gutter puts the start a gutter beyond the right edge
   (moved by the offset), although the grid has no parts.
   */
  lemma EmptyRightColumns(o: AxisOptions, width: real)
    requires Trunc(o.count) == 0 && !o.outerGutter
    ensures MainPass(Columns, Right, o, width).start == width + o.offset * o.unit + o.gutter * o.unit
    ensures Width(MainPass(Columns, Right, o, width)) == 0.0
  {
    EmptyGridWithoutOuterGutters(o.size * o.unit, o.gutter * o.unit);
  }

  /**
   Three columns 10 wide with gutters of 5 and outer gutters, left aligned at
   0: the main pass starts at 0 and the centre pass draws from 2.5 with
   15-wide cells and no gutter.
   */
  lemma CenterPassExample()
    ensures
      var o := AxisOptions(1.0, "left", 0.0, 3.0, 10.0, 5.0, true, true, false);
      Effect("\"columns\"", o, o, Canvas(200.0, 100.0))
        == Completed([Draw(Pass(3, 10.0, 5.0, 0.0, true), Vertical), Draw(Pass(3, 15.0, 0.0, 2.5, true), Vertical)])
  {
    var o := AxisOptions(1.0, "left", 0.0, 3.0, 10.0, 5.0, true, true, false);
    assert Trunc(3.0) == 3;
  }
}
