/**
 Where the grid starts along its axis. Columns are laid out left to right
 from the left edge of the canvas; rows are laid out bottom up, because the
 guide coordinate system has its origin at the bottom left, so the user's
 offset (measured from the top) enters rows with its sign flipped. Only the
 canvas extent and half the total are rounded, and only in some modes.
 */
module Placement {
  import opened Wrappers
  import opened PyNumbers

  /** The two axes the effect can lay a grid along. */
  datatype Axis = Columns | Rows

  /** The alignment modes; columns accept left/centered/right, rows top/centered/bottom. */
  datatype Alignment = Left | Right | Top | Bottom | Centered

  /** The option string that selects `a`. */
  function Name(a: Alignment): string {
    match a
    case Left => "left"
    case Right => "right"
    case Top => "top"
    case Bottom => "bottom"
    case Centered => "centered"
  }

  /** The alignments the effect tests for on `axis`. */
  predicate Accepts(axis: Axis, a: Alignment) {
    match axis
    case Columns => a == Left || a == Centered || a == Right
    case Rows => a == Top || a == Centered || a == Bottom
  }

  /**
   The alignment an option string selects on `axis`, or `None` when the
   string matches none of that axis's modes (the effect then never binds a
   start coordinate).
   */
  function ParseAlignment(axis: Axis, s: string): (a: Option<Alignment>)
    ensures a.Some? ==> Accepts(axis, a.value) && Name(a.value) == s
    ensures a.None? ==> forall x :: Accepts(axis, x) ==> Name(x) != s
  {
    match axis
    case Columns =>
      if s == "left" then Some(Left)
      else if s == "centered" then Some(Centered)
      else if s == "right" then Some(Right)
      else None
    case Rows =>
      if s == "top" then Some(Top)
      else if s == "centered" then Some(Centered)
      else if s == "bottom" then Some(Bottom)
      else None
  }

  /**
   Start coordinate of a column grid spanning `total` on a canvas `width`
   wide, aligned by `a` and moved right by the user `offset`.
   */
  function ColumnStart(a: Alignment, width: real, total: real, offset: real): (start: real)
    requires Accepts(Columns, a)
    // left: the grid begins `offset` from the left edge
    ensures a == Left ==> start == offset
    // right: the grid ends at the right edge, moved by `offset`; nothing is rounded
    ensures a == Right ==> start + total == width + offset
    // centered: the rounded half-total after the start reaches the rounded middle, moved by `offset`
    ensures a == Centered ==> start + Round(total / 2.0) as real == Round(width / 2.0) as real + offset
    ensures a == Centered ==> Abs(start + total / 2.0 - offset - width / 2.0) <= 1.0
  {
    if a == Left then offset
    else if a == Right then width - total + offset
    else Round(width / 2.0) as real - Round(total / 2.0) as real + offset
  }

  /**
   Start coordinate of a row grid spanning `total` on a canvas `height`
   high. Coordinates grow upwards from the bottom edge, and the user `offset`
   moves the grid down.
   */
  function RowStart(a: Alignment, height: real, total: real, offset: real): (start: real)
    requires Accepts(Rows, a)
    // top: the grid ends `offset` below the rounded canvas height
    ensures a == Top ==> start + total + offset == Round(height) as real
    ensures a == Top ==> Abs(start + total + offset - height) <= 0.5
    // bottom: the grid begins `offset` below the bottom edge
    ensures a == Bottom ==> start == -offset
    // centered: the rounded half-total after the start reaches the rounded middle, moved down by `offset`
    ensures a == Centered ==> start + Round(total / 2.0) as real == Round(height / 2.0) as real - offset
    ensures a == Centered ==> Abs(start + total / 2.0 + offset - height / 2.0) <= 1.0
  {
    if a == Top then Round(height) as real - total - offset
    else if a == Bottom then -offset
    else Round(height / 2.0) as real - Round(total / 2.0) as real - offset
  }

  /** Start coordinate along `axis` for an alignment the axis accepts. */
  function Start(axis: Axis, a: Alignment, extent: real, total: real, offset: real): real
    requires Accepts(axis, a)
  {
    match axis
    case Columns => ColumnStart(a, extent, total, offset)
    case Rows => RowStart(a, extent, total, offset)
  }

  /** The user offset shifts a column grid rigidly to the right, whatever the alignment. */
  lemma ColumnOffsetShifts(a: Alignment, width: real, total: real, offset: real)
    requires Accepts(Columns, a)
    ensures ColumnStart(a, width, total, offset) == ColumnStart(a, width, total, 0.0) + offset
  {
  }

  /** The user offset shifts a row grid rigidly downwards, whatever the alignment. */
  lemma RowOffsetShifts(a: Alignment, height: real, total: real, offset: real)
    requires Accepts(Rows, a)
    ensures RowStart(a, height, total, offset) == RowStart(a, height, total, 0.0) - offset
  {
  }

  /** With no offset, a centred grid's midpoint is within one unit of the canvas middle, on either axis. */
  lemma CenteredIsNearlyCentral(axis: Axis, extent: real, total: real)
    ensures Abs(Start(axis, Centered, extent, total, 0.0) + total / 2.0 - extent / 2.0) <= 1.0
  {
  }

  /** Right-aligned columns: width 200, total 80, offset 5 start at 125. */
  lemma RightAlignedExample()
    ensures ColumnStart(Right, 200.0, 80.0, 5.0) == 125.0
  {
  }

  /** Top-aligned rows: height 300, total 100, offset 10 start at 190. */
  lemma TopAlignedExample()
    ensures RowStart(Top, 300.0, 100.0, 10.0) == 190.0
  {
    RoundOfInteger(300);
  }
}
