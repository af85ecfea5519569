# Add Grid Guides: the grid placement arithmetic

This project models the core of the Inkscape extension "Add Grid Guides"
(`Grid_Guides.effect`). The extension lays a grid of column guides (vertical)
or row guides (horizontal) over the canvas. Each axis has its own options:

- a count of cells;
- a cell size and a gutter, the spacing between cells;
- optional outer gutters before the first cell and after the last;
- an alignment and a user offset;
- a unit;
- an option to add centre guides inside the gutters;
- an option to delete the existing guides of that orientation first.

The effect does not compute guide coordinates itself. It computes the
parameters of one or two calls to the helper that draws "double guides". The
first call is the main pass. The second is the centre pass, whose lattice of
points `start + k * cellSize` is aimed at the middle of each gutter. Before drawing, the effect may call the
helper that deletes guides of one orientation. The model therefore produces
an ordered list of requests:

- `Delete(orientation)`;
- `Draw(pass, orientation)`, where a `Pass` holds the count, cell size,
  gutter, start and outer-gutter flag.

Modules:

- `PyNumbers` (py_numbers.dfy): Python's `round` (round half to even) and
  `int` applied to a float (truncation toward zero), on exact reals.
- `Grid` (grid.dfy): the total extent formula of the grid. It also holds an
  independent description of the grid as an alternating sequence of `Cell`
  and `Gutter` parts (`Layout`), with its `Span`. The total extent is proved
  equal to that span, and the position of every gutter is derived from it.
- `CenterGuides` (center_guides.dfy): the centre pass's parameters. A proof
  shows that its lattice `start + k * cellSize`, for `k = 0 .. count`, hits
  the midpoint of every gutter of the main grid, one point per gutter.
- `Placement` (placement.dfy): alignment strings and the start coordinate.
  Columns run left to right. Rows run bottom up with the offset negated.
  Rounding is applied only to the canvas term and to half of the total, as
  the effect does it.
- `GridGuides` (grid_guides.dfy): unit scaling, dispatch on the tab, the order
  of deletion and drawing, and the failure when an alignment string is not
  recognised.

`AxisOptions` holds one axis's options. For columns these are
`column_unit` (as its factor), `column_alignment`, `column_offset`,
`columns`, `column_width`, `column_gutter`, `include_outer_col_gutter`,
`include_center_col_guides` and `delete_vert_guides`. Rows use the `row_`
counterparts and `delete_hor_guides`.

Behaviour worth knowing, all as the code does it:

- The tab is compared with the quoted strings `"columns"` and `"rows"`, with
  the double quotes as part of the string. Any other tab value issues
  nothing.
- Nothing is validated. Negative counts, sizes, gutters and units go straight
  into the arithmetic.
- The centre pass without outer gutters is given the count `n - 2` unclamped,
  so it is negative for `n < 2`.
- An alignment string that names no mode of the axis is not rejected up
  front. The effect first issues the optional deletion. It then fails because
  the start coordinate was never bound. `Outcome.UnboundStart` models this
  case and keeps the requests issued before the failure.
- With no cells and no outer gutters, the total extent formula gives minus
  one gutter, although the grid has no parts. Right-aligned columns then
  start one gutter to the right of the right edge, centred columns
  subtract `round(-g/2)` where an empty grid would subtract 0, and the centre pass gets the count `-2`
  (`Grid.EmptyGridWithoutOuterGutters`, `GridGuides.EmptyRightColumns`,
  `CenterGuides.CenterCountOfEmptyGrid`).

## Model

| member | source | states |
|---|---|---|
| PyNumbers.Round | extensions/guidetools_add_grid_guides.py:212-214 | `round` returns an integer within 1/2 of its argument, and an exact tie goes to the even integer |
| PyNumbers.RoundIsNearest | extensions/guidetools_add_grid_guides.py:249-250 | no integer is closer to the argument than `round` of it |
| PyNumbers.RoundOfInteger | extensions/guidetools_add_grid_guides.py:245-246 | rounding an integral canvas extent leaves it unchanged |
| PyNumbers.Trunc | extensions/guidetools_add_grid_guides.py:163 | `int(columns)` truncates toward zero: the result has the sign of the argument and lies within one of it, and its magnitude is not larger |
| Grid.OuterGuttersAddTwo | extensions/guidetools_add_grid_guides.py:190-200 | the total extent with outer gutters exceeds the one without by exactly two gutters, for any count |
| Grid.Layout | extensions/guidetools_add_grid_guides.py:190-194 | the grid, part by part: cells and gutters alternate, and it starts and ends with a gutter when outer gutters are on and with a cell otherwise |
| Grid.LayoutCount | extensions/guidetools_add_grid_guides.py:190-194 | a grid of `n` cells holds `n` cells and `n+1` gutters with outer gutters, or `n-1` gutters without (none when `n` is 0) |
| Grid.TotalExtentIsSpan | extensions/guidetools_add_grid_guides.py:190-200 | the closed formula `n*w + (n+1)*g` or `n*w + (n-1)*g` equals the summed width of the grid's parts, for every count, except that an empty grid without outer gutters spans one gutter more than the formula says |
| Grid.EmptyGridWithoutOuterGutters | extensions/guidetools_add_grid_guides.py:190-194 | with no cells and no outer gutters the grid has no parts and spans 0, while the formula gives minus one gutter |
| Grid.GutterBefore | extensions/guidetools_add_grid_guides.py:224-229 | gutter `k` exists exactly up to the gutter count, and `k` gutters and `k` cells precede it, plus one more cell without outer gutters |
| Grid.GutterPosition | extensions/guidetools_add_grid_guides.py:224-229 | gutter `k` begins `k*(w+g)` after the start of the grid, plus `w` without outer gutters |
| CenterGuides.CenterPass | extensions/guidetools_add_grid_guides.py:224-233 | the centre pass uses cell size `w+g`, gutter 0 and the main pass's outer flag, and its count is negative exactly when `n < 0` with outer gutters or `n < 2` without |
| CenterGuides.CenterCountOfEmptyGrid | extensions/guidetools_add_grid_guides.py:224-233 | with no cells and no outer gutters the centre pass gets the count `-2`, while the main grid has no gutter |
| CenterGuides.CenterPassHitsGutterMidpoints | extensions/guidetools_add_grid_guides.py:223-233 | the centre pass's count plus one equals the number of gutters of the main grid, and its `k`-th lattice point is the midpoint of gutter `k` |
| Placement.ParseAlignment | extensions/guidetools_add_grid_guides.py:209-253 | an alignment string is recognised exactly when it names a mode the axis tests for (left/centered/right for columns, top/centered/bottom for rows), and it is recognised as that mode |
| Placement.ColumnStart | extensions/guidetools_add_grid_guides.py:209-217 | left columns begin at the offset. Right columns end at the canvas width plus the offset, without rounding. Centred columns reach the rounded canvas middle, plus the offset, after the rounded half-total, so they are within 1 of centred |
| Placement.RowStart | extensions/guidetools_add_grid_guides.py:244-253 | top rows end at the rounded canvas height minus the offset, so within 1/2 of the height. Bottom rows begin at minus the offset. Centred rows reach the rounded middle, minus the offset, after the rounded half-total |
| Placement.ColumnOffsetShifts | extensions/guidetools_add_grid_guides.py:209-217 | in every column mode the offset moves the whole grid right by the offset |
| Placement.RowOffsetShifts | extensions/guidetools_add_grid_guides.py:244-253 | in every row mode the offset moves the whole grid down (towards the origin) by the offset |
| Placement.CenteredIsNearlyCentral | extensions/guidetools_add_grid_guides.py:212-214 | with no offset, the midpoint of a centred grid is within one unit of the canvas middle |
| Placement.RightAlignedExample | extensions/guidetools_add_grid_guides.py:216-217 | width 200, total 80, offset 5, right aligned: the start is 125 |
| Placement.TopAlignedExample | extensions/guidetools_add_grid_guides.py:244-246 | height 300, total 100, offset 10, top aligned: the start is 190 |
| GridGuides.ParseTab | extensions/guidetools_add_grid_guides.py:202-235 | only the quoted literals select an axis: `"columns"` selects columns and `"rows"` selects rows |
| GridGuides.MainPass | extensions/guidetools_add_grid_guides.py:159-253 | the count is the option truncated toward zero and never scaled, and the lengths are in user units. Measured against the grid's own parts, whenever the count is at least 0 with outer gutters or at least 1 without: left columns begin at the offset, right columns end exactly at the right edge plus the offset, top rows end the offset below the rounded top edge, bottom rows begin the offset below the bottom edge, and centred grids have their midpoint within 1 of the canvas middle moved by the offset |
| GridGuides.Draws | extensions/guidetools_add_grid_guides.py:219-233 | the main pass is drawn first. A second draw, the centre pass derived from the main one, follows exactly when the scaled gutter is positive and centre guides are on. All draws have the axis's orientation |
| GridGuides.AxisEffect | extensions/guidetools_add_grid_guides.py:202-269 | all requests have the axis's orientation. A deletion is issued exactly when asked for, and only first. The run fails exactly when the alignment is not recognised, and then it draws nothing. Otherwise the requests are the optional deletion followed by the draws |
| GridGuides.Effect | extensions/guidetools_add_grid_guides.py:151-269 | a tab other than the two quoted literals issues nothing. All requests have the selected axis's orientation. Nothing but the first can be a deletion, and it is issued exactly when the selected axis's delete option is set |
| GridGuides.OtherAxisIgnored | extensions/guidetools_add_grid_guides.py:202-269 | the options and the canvas extent of the axis the tab does not select never change the run |
| GridGuides.AxisUnitIsAFactor | extensions/guidetools_add_grid_guides.py:159-176 | for one axis, converting offset, size and gutter to user units beforehand gives the same requests |
| GridGuides.EmptyRightColumns | extensions/guidetools_add_grid_guides.py:190-217 | right-aligned columns with no cells and no outer gutters start one gutter beyond the right edge plus the offset, though the grid has no width |
| GridGuides.UnitIsAFactor | extensions/guidetools_add_grid_guides.py:159-176 | the unit enters only as a factor on offset, size and gutter: converting them to user units beforehand gives the same run, and the count is not scaled |
| GridGuides.CenterPassExample | extensions/guidetools_add_grid_guides.py:224-233 | three left-aligned columns 10 wide with gutters of 5 and outer gutters: main pass at 0, and a centre pass of 3 cells 15 wide with no gutter, starting at 2.5 |

## Left out

- Guide drawing and deletion. `guidetools.drawDoubleGuides` and
  `guidetools.deleteGuidesByOrientation` are not part of this model, so they
  stay opaque requests. The coordinates a `Draw` expands to, the number of
  guides it creates, and what a negative count does there are not modelled.
  The geometry of the grid itself (`Grid.Layout`) and the gutter midpoints
  the centre pass aims at are modelled.
- Host plumbing. Option parsing, `svg.unittouu`, the `namedview` lookup and
  reading the canvas `width` and `height` from the document are not
  modelled. The unit factor and the canvas extents are parameters, and
  `AxisOptions.unit` is the result of `unittouu('1' + unit)`.
- The unselected axis. The effect also converts the options of the
  unselected axis (its unit, `int(rows)`, and so on). Those values feed no
  request. Their conversion can fail (an unknown unit, `int()` of an
  infinity or NaN), which would stop the run before any request is issued;
  that failure is not modelled.
- GridGuides.OtherAxisIgnored: holds only because the failure of the
  unselected axis's conversions is not modelled; with it, a bad option of
  the other axis would stop the run before any request.
- CenterGuides.CenterPassHitsGutterMidpoints: proves that the centre pass's
  lattice `start + k * cellSize`, `k = 0 .. count`, is the set of gutter
  midpoints. That the drawing helper turns a pass into guides at exactly
  those points is an assumption about a helper this model does not include.
  If it drew only interior guides when outer gutters are off, the centre
  pass would miss the first and last gutter.
- Floating point. Lengths are exact reals. IEEE double rounding is not
  modelled. `int()` of an infinity or NaN, which raises in Python, is not
  modelled.
- PyNumbers.Round: models Python 3's round-half-to-even on exact reals. The
  IEEE representation of the argument is not modelled.
- Option conversion. The boolean options are taken as already converted
  to booleans. How the option parser turns the strings it receives into
  them is not modelled.
- The runtime error for an unrecognised alignment. It is modelled as the
  `UnboundStart` outcome, which keeps the deletion already issued. The
  Python exception itself and its traceback are not modelled.
- Module-level execution (`effect.run()`) and the `sys.path` setup.
